/**
 * The sticker animation clock: one loader per sticker definition, which on
 * every render tick turns the wall clock into a frame index, looks the
 * frame's image up among the pack's assets and keeps a texture for it.
 *
 * `Tick` is the whole effect of one tick as a function of the loader's
 * clock state; the class `FaceStickerLoader` performs it field by field and
 * is proved equal to it; the lemmas below state what the tick promises.
 */
module StickerLoader {
  import opened Wrappers
  import opened Faces
  import opened JavaArith

  /** The texture id that stands for "no texture". */
  const GL_NOT_TEXTURE: int := -1
  /** The scheme prefix stripped from a pack's folder path. */
  const FILE_SCHEME: string := "file://"

  /**
   * The mutable part of a loader. `currentTime == -1` means the clock is
   * unset; `frameIndex == -1` means no frame is resolved.
   */
  datatype Clock = Clock(currentTime: int, frameIndex: int, stickerTexture: int, restoreTexture: int)

  /** Which `createTexture` overload a successful decode calls. */
  datatype Upload = NoUpload | FreshTexture | ReuseTexture(id: int)

  /** One tick: the new state, the frame whose asset was requested, and the upload made. */
  datatype Step = Step(next: Clock, lookup: Option<nat>, upload: Upload)

  /** The state of a fresh loader. */
  function InitialClock(): Clock {
    Clock(-1, -1, GL_NOT_TEXTURE, GL_NOT_TEXTURE)
  }

  /** `(int) ((now - start) / duration)` with Java's long division and narrowing cast. */
  function FrameAt(start: int, now: int, duration: int): int
    requires duration != 0
  {
    ToInt(Div(now - start, duration))
  }

  /**
   * One call of `updateStickerTexture`. `hasFace` is what the landmark store
   * answers, `now` the wall clock in milliseconds, `decoded` whether the
   * requested frame image could be opened and decoded, and `created` the id
   * the texture upload returns.
   */
  function Tick(c: Clock, data: StickerData, hasFace: bool, now: int, decoded: bool, created: int): Step
    requires data.duration != 0
  {
    if !hasFace then
      Step(c.(currentTime := -1), None, NoUpload)
    else
      var start := if c.currentTime == -1 then now else c.currentTime;
      var raw := FrameAt(start, now, data.duration);
      if raw >= data.frames && !data.stickerLooping then
        Step(Clock(-1, -1, GL_NOT_TEXTURE, c.stickerTexture), None, NoUpload)
      else
        var time := if raw >= data.frames then now else start;
        var index := if raw >= data.frames || raw < 0 then 0 else raw;
        if c.frameIndex == index then
          Step(c.(currentTime := time), None, NoUpload)
        else if decoded then
          var upload :=
            if c.stickerTexture == GL_NOT_TEXTURE && c.restoreTexture != GL_NOT_TEXTURE then ReuseTexture(c.restoreTexture)
            else if c.stickerTexture == GL_NOT_TEXTURE then FreshTexture
            else ReuseTexture(c.stickerTexture);
          Step(Clock(time, index, created, created), Some(index), upload)
        else
          Step(Clock(time, -1, GL_NOT_TEXTURE, c.stickerTexture), Some(index), NoUpload)
  }

  // ---------------------------------------------------------------------
  // The frame index and the clock
  // ---------------------------------------------------------------------

  /**
   * While the elapsed time fits a Java int, the frame index is the number
   * of whole frame durations elapsed.
   */
  lemma FrameAtElapsed(start: int, now: int, duration: int)
    requires duration > 0 && 0 <= now - start <= INT_MAX
    ensures var f := FrameAt(start, now, duration);
      f >= 0 && f * duration <= now - start < (f + 1) * duration
  {
    var e := now - start;
    var q := e / duration;
    assert 0 <= q <= e by {
      DivBelow(e, duration);
    }
    assert Div(e, duration) == q;
    assert ToInt(q) == q;
    assert q * duration <= e < (q + 1) * duration by {
      assert e == q * duration + e % duration;
      assert (q + 1) * duration == q * duration + duration;
    }
  }

  lemma DivBelow(e: nat, d: int)
    requires d > 0
    ensures 0 <= e / d <= e
  {
    var q := e / d;
    assert q >= 0;
    assert e == q * d + e % d && e % d >= 0;
    assert q * d == q * (d - 1) + q;
    MulNonneg(q, d - 1);
  }

  /** Without a face the clock is unset and nothing else changes. */
  lemma NoFaceUnsetsClock(c: Clock, data: StickerData, now: int, decoded: bool, created: int)
    requires data.duration != 0
    ensures var s := Tick(c, data, false, now, decoded, created);
      && s.next.currentTime == -1
      && s.next.frameIndex == c.frameIndex
      && s.next.stickerTexture == c.stickerTexture && s.next.restoreTexture == c.restoreTexture
      && s.lookup.None? && s.upload.NoUpload?
  {
  }

  /**
   * With a face and the frame still inside the animation, the clock starts
   * at `now` if it was unset, and the frame looked at is the elapsed frame
   * count, raised to 0 if negative.
   */
  lemma TickFrameIndex(c: Clock, data: StickerData, now: int, decoded: bool, created: int)
    requires data.duration != 0
    ensures var start := if c.currentTime == -1 then now else c.currentTime;
      var raw := FrameAt(start, now, data.duration);
      var s := Tick(c, data, true, now, decoded, created);
      raw < data.frames ==>
        && s.next.currentTime == start
        && (s.lookup.Some? ==> s.lookup.value == (if raw < 0 then 0 else raw))
        && (s.lookup.None? <==> c.frameIndex == (if raw < 0 then 0 else raw))
  {
  }

  /** A looping sticker that ran past its last frame restarts at frame 0 with the clock at `now`. */
  lemma LoopWraps(c: Clock, data: StickerData, now: int, decoded: bool, created: int)
    requires data.duration != 0 && data.stickerLooping
    requires FrameAt(if c.currentTime == -1 then now else c.currentTime, now, data.duration) >= data.frames
    ensures var s := Tick(c, data, true, now, decoded, created);
      && s.next.currentTime == now
      && (s.lookup.Some? ==> s.lookup.value == 0)
      && (s.lookup.None? <==> c.frameIndex == 0)
  {
  }

  /**
   * A one-shot sticker that ran past its last frame stops: the clock is
   * unset, the shown texture moves to the restore slot and no frame is
   * resolved.
   */
  lemma OneShotStops(c: Clock, data: StickerData, now: int, decoded: bool, created: int)
    requires data.duration != 0 && !data.stickerLooping
    requires FrameAt(if c.currentTime == -1 then now else c.currentTime, now, data.duration) >= data.frames
    ensures var s := Tick(c, data, true, now, decoded, created);
      && s.next == Clock(-1, -1, GL_NOT_TEXTURE, c.stickerTexture)
      && s.lookup.None? && s.upload.NoUpload?
  {
  }

  /** After a one-shot stop, the next tick with a face starts over at frame 0. */
  lemma {:induction false} OneShotRestarts(c: Clock, data: StickerData, now: int, later: int, decoded: bool, created: int,
                                          decoded': bool, created': int)
    requires data.duration != 0 && !data.stickerLooping && data.frames > 0
    requires FrameAt(if c.currentTime == -1 then now else c.currentTime, now, data.duration) >= data.frames
    ensures var s := Tick(Tick(c, data, true, now, decoded, created).next, data, true, later, decoded', created');
      s.lookup == Some(0) && s.next.currentTime == later
  {
    OneShotStops(c, data, now, decoded, created);
    assert Div(later - later, data.duration) == 0;
    assert FrameAt(later, later, data.duration) == 0;
  }

  /**
   * The scenario of a 5-frame one-shot sticker at 100 ms per frame: 600 ms
   * after the start it has stopped and shows nothing, keeping its last
   * texture for restoring.
   */
  lemma OneShotScenario(c: Clock, data: StickerData, decoded: bool, created: int)
    requires data.duration == 100 && data.frames == 5 && !data.stickerLooping
    requires c.currentTime == 1000
    ensures var s := Tick(c, data, true, 1600, decoded, created);
      s.next == Clock(-1, -1, GL_NOT_TEXTURE, c.stickerTexture)
  {
    assert FrameAt(1000, 1600, 100) == 6;
  }

  /** A frame index equal to the resolved one changes no texture and looks nothing up. */
  lemma CachedFrameKeepsTextures(c: Clock, data: StickerData, now: int, decoded: bool, created: int)
    requires data.duration != 0
    requires var start := if c.currentTime == -1 then now else c.currentTime;
      var raw := FrameAt(start, now, data.duration);
      c.frameIndex == (if raw >= data.frames then 0 else if raw < 0 then 0 else raw)
    requires data.stickerLooping || FrameAt(if c.currentTime == -1 then now else c.currentTime, now, data.duration) < data.frames
    ensures var s := Tick(c, data, true, now, decoded, created);
      && s.next.frameIndex == c.frameIndex
      && s.next.stickerTexture == c.stickerTexture && s.next.restoreTexture == c.restoreTexture
      && s.lookup.None? && s.upload.NoUpload?
  {
  }

  /**
   * A successful decode resolves the frame: both texture slots hold the
   * uploaded texture, and the upload reuses the restore texture when no
   * texture is shown but a restore texture exists.
   */
  lemma DecodeResolves(c: Clock, data: StickerData, now: int, created: int)
    requires data.duration != 0
    ensures var s := Tick(c, data, true, now, true, created);
      s.lookup.Some? ==>
        && s.next.frameIndex == s.lookup.value
        && s.next.stickerTexture == created && s.next.restoreTexture == created
        && (c.stickerTexture == GL_NOT_TEXTURE && c.restoreTexture != GL_NOT_TEXTURE ==> s.upload == ReuseTexture(c.restoreTexture))
        && (c.stickerTexture != GL_NOT_TEXTURE ==> s.upload == ReuseTexture(c.stickerTexture))
        && (c.stickerTexture == GL_NOT_TEXTURE && c.restoreTexture == GL_NOT_TEXTURE ==> s.upload == FreshTexture)
  {
  }

  /**
   * A failed decode shows no texture, keeps the shown one for restoring and
   * leaves the frame unresolved, so that the next tick looks it up again.
   */
  lemma {:induction false} DecodeFailureRetries(c: Clock, data: StickerData, now: int, created: int,
                                               later: int, decoded': bool, created': int)
    requires data.duration != 0
    ensures var s := Tick(c, data, true, now, false, created);
      s.lookup.Some? ==>
        && s.next.frameIndex == -1
        && s.next.stickerTexture == GL_NOT_TEXTURE && s.next.restoreTexture == c.stickerTexture
        && (data.stickerLooping || FrameAt(s.next.currentTime, later, data.duration) < data.frames ==>
              Tick(s.next, data, true, later, decoded', created').lookup.Some?)
  {
  }

  /** A texture is shown only while the restore slot holds that same texture. */
  ghost predicate TexturesAgree(c: Clock) {
    c.stickerTexture == GL_NOT_TEXTURE || c.restoreTexture == c.stickerTexture
  }

  /** A resolved frame lies inside the animation. */
  ghost predicate FrameInRange(c: Clock, data: StickerData) {
    c.frameIndex == -1 || 0 <= c.frameIndex < data.frames
  }

  /** Every tick keeps both invariants of a loader whose sticker has frames. */
  lemma TickKeepsInvariants(c: Clock, data: StickerData, hasFace: bool, now: int, decoded: bool, created: int)
    requires data.duration != 0 && data.frames > 0
    requires TexturesAgree(c) && FrameInRange(c, data)
    ensures TexturesAgree(Tick(c, data, hasFace, now, decoded, created).next)
    ensures FrameInRange(Tick(c, data, hasFace, now, decoded, created).next, data)
  {
  }

  // ---------------------------------------------------------------------
  // Frame asset names
  // ---------------------------------------------------------------------

  function DigitChar(d: nat): char
    requires d < 10
  {
    "0123456789"[d]
  }

  predicate IsDigit(ch: char) {
    '0' as int <= ch as int <= '9' as int
  }

  /** The decimal digits of `n`, without leading zeros. */
  function Decimal(n: nat): (s: string)
    ensures |s| >= 1 && forall i :: 0 <= i < |s| ==> IsDigit(s[i])
  {
    if n < 10 then [DigitChar(n)] else Decimal(n / 10) + [DigitChar(n % 10)]
  }

  /** Java's `%03d` on a non-negative number: zero-padded to at least three digits. */
  function ZeroPadded3(n: nat): (s: string)
    ensures |s| >= 3 && forall i :: 0 <= i < |s| ==> IsDigit(s[i])
    ensures n < 1000 ==> |s| == 3
  {
    var d := Decimal(n);
    DecimalLength(n);
    if |d| >= 3 then d else seq(3 - |d|, _ => '0') + d
  }

  lemma {:induction false} DecimalLength(n: nat)
    ensures n < 10 ==> |Decimal(n)| == 1
    ensures n < 100 ==> |Decimal(n)| <= 2
    ensures n < 1000 ==> |Decimal(n)| <= 3
  {
    if n >= 10 {
      DecimalLength(n / 10);
    }
  }

  /** The value of a string of decimal digits. */
  function ParseDecimal(s: string): nat
    requires forall i :: 0 <= i < |s| ==> IsDigit(s[i])
  {
    if s == [] then 0
    else
      assert IsDigit(s[|s| - 1]);
      10 * ParseDecimal(s[..|s| - 1]) + (s[|s| - 1] as int - '0' as int)
  }

  lemma {:induction false} ParseDecimalInverse(n: nat)
    ensures ParseDecimal(Decimal(n)) == n
  {
    if n >= 10 {
      var s := Decimal(n);
      assert s[..|s| - 1] == Decimal(n / 10);
      ParseDecimalInverse(n / 10);
    }
  }

  /** Leading zeros do not change the value. */
  lemma {:induction false} ParseLeadingZeros(z: nat, s: string)
    requires forall i :: 0 <= i < |s| ==> IsDigit(s[i])
    ensures var t := seq(z, _ => '0') + s;
      (forall i :: 0 <= i < |t| ==> IsDigit(t[i])) && ParseDecimal(t) == ParseDecimal(s)
  {
    var t := seq(z, _ => '0') + s;
    if s == [] {
      assert t == seq(z, _ => '0');
      if z > 0 {
        ParseLeadingZeros(z - 1, []);
        assert t[..|t| - 1] == seq(z - 1, _ => '0') + [];
      }
    } else {
      ParseLeadingZeros(z, s[..|s| - 1]);
      assert t[..|t| - 1] == seq(z, _ => '0') + s[..|s| - 1];
    }
  }

  /** The padded frame number reads back as the frame number. */
  lemma ZeroPadded3Inverse(n: nat)
    ensures ParseDecimal(ZeroPadded3(n)) == n
  {
    ParseDecimalInverse(n);
    var d := Decimal(n);
    if |d| < 3 {
      ParseLeadingZeros(3 - |d|, d);
    }
  }

  /** The asset of frame `n`: `<folder>/<name>_<nnn>.png`. */
  function AssetPath(folder: string, name: string, n: nat): string {
    folder + "/" + name + "_" + ZeroPadded3(n) + ".png"
  }

  /** Distinct frames of one sticker are looked up under distinct asset paths. */
  lemma AssetPathInjective(folder: string, name: string, n: nat, m: nat)
    ensures AssetPath(folder, name, n) == AssetPath(folder, name, m) <==> n == m
  {
    if AssetPath(folder, name, n) == AssetPath(folder, name, m) {
      var p := folder + "/" + name + "_";
      var a, b := ZeroPadded3(n), ZeroPadded3(m);
      var s := AssetPath(folder, name, n);
      assert s == p + a + ".png";
      assert AssetPath(folder, name, m) == p + b + ".png";
      assert s[|p|..|s| - 4] == a;
      assert s[|p|..|s| - 4] == b;
      ZeroPadded3Inverse(n);
      ZeroPadded3Inverse(m);
    }
  }

  /** The folder path with one leading `file://` removed. */
  function StripFileScheme(path: string): (r: string)
    ensures if |path| >= |FILE_SCHEME| && path[..|FILE_SCHEME|] == FILE_SCHEME
            then FILE_SCHEME + r == path
            else r == path
  {
    if |path| >= |FILE_SCHEME| && path[..|FILE_SCHEME|] == FILE_SCHEME then path[|FILE_SCHEME|..] else path
  }

  // ---------------------------------------------------------------------
  // The loader
  // ---------------------------------------------------------------------

  class FaceStickerLoader {
    var stickerTexture: int
    var restoreTexture: int
    var folderPath: string
    var stickerData: Option<StickerData>
    var frameIndex: int
    var currentTime: int

    function State(): Clock
      reads this
    {
      Clock(currentTime, frameIndex, stickerTexture, restoreTexture)
    }

    /** A loader for `stickerData` whose frames live under `path`. */
    constructor (stickerData: Option<StickerData>, path: string)
      ensures State() == InitialClock()
      ensures this.stickerData == stickerData
      ensures folderPath == StripFileScheme(path)
    {
      this.stickerData := stickerData;
      folderPath := StripFileScheme(path);
      stickerTexture, restoreTexture := GL_NOT_TEXTURE, GL_NOT_TEXTURE;
      frameIndex, currentTime := -1, -1;
    }

    /**
     * One render tick. Returns the asset path that was opened, if any, and
     * the texture upload made.
     */
    method UpdateStickerTexture(hasFace: bool, now: int, decoded: bool, created: int)
      returns (asset: Option<string>, upload: Upload)
      requires stickerData.Some? && stickerData.value.duration != 0
      modifies this`currentTime, this`frameIndex, this`stickerTexture, this`restoreTexture
      ensures var s := Tick(old(State()), stickerData.value, hasFace, now, decoded, created);
        && State() == s.next && upload == s.upload
        && asset == (if s.lookup.Some? then Some(AssetPath(folderPath, stickerData.value.stickerName, s.lookup.value)) else None)
    {
      asset, upload := None, NoUpload;
      var data := stickerData.value;
      if !hasFace {
        currentTime := -1;
        return;
      }
      if currentTime == -1 {
        currentTime := now;
      }
      var index := FrameAt(currentTime, now, data.duration);
      if index >= data.frames {
        if !data.stickerLooping {
          currentTime := -1;
          restoreTexture := stickerTexture;
          stickerTexture := GL_NOT_TEXTURE;
          frameIndex := -1;
          return;
        }
        index := 0;
        currentTime := now;
      }
      if index < 0 {
        index := 0;
      }
      if frameIndex == index {
        return;
      }
      asset := Some(AssetPath(folderPath, data.stickerName, index));
      if decoded {
        if stickerTexture == GL_NOT_TEXTURE && restoreTexture != GL_NOT_TEXTURE {
          stickerTexture := restoreTexture;
        }
        if stickerTexture == GL_NOT_TEXTURE {
          upload := FreshTexture;
        } else {
          upload := ReuseTexture(stickerTexture);
        }
        stickerTexture := created;
        restoreTexture := stickerTexture;
        frameIndex := index;
      } else {
        restoreTexture := stickerTexture;
        stickerTexture := GL_NOT_TEXTURE;
        frameIndex := -1;
      }
    }

    /**
     * Deletes the texture in use (the restore texture when none is shown)
     * and clears both slots. Returns the id handed to the deletion.
     */
    method Release() returns (deleted: int)
      modifies this`stickerTexture, this`restoreTexture
      ensures deleted == if old(stickerTexture) == GL_NOT_TEXTURE then old(restoreTexture) else old(stickerTexture)
      ensures TexturesAgree(old(State())) ==> deleted == old(restoreTexture)
      ensures stickerTexture == GL_NOT_TEXTURE && restoreTexture == GL_NOT_TEXTURE
    {
      if stickerTexture == GL_NOT_TEXTURE {
        stickerTexture := restoreTexture;
      }
      deleted := stickerTexture;
      stickerTexture := GL_NOT_TEXTURE;
      restoreTexture := GL_NOT_TEXTURE;
    }

    /** How many faces this sticker is drawn on at most; 0 without a definition. */
    function MaxCount(): (n: int)
      reads this
      ensures stickerData.Some? ==> n == stickerData.value.maxCount
      ensures stickerData.None? ==> n == 0
    {
      if stickerData.None? then 0 else stickerData.value.maxCount
    }
  }
}
