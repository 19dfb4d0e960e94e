/**
 * The scroll-scrubbed image-sequence player (components/ParallaxHero.tsx).
 *
 * One `Hero` object holds the state the component keeps between events:
 * the `imagesLoaded` flag, the frame array behind `imagesRef`, the counter
 * each run of the preload effect keeps in its closure, the canvas size and
 * a log of the drawing calls made on the canvas. Every browser callback is a
 * method: a frame's `onload` or `onerror`, the safety timeout firing, a
 * change of `config.sequenceUrl`, a scroll and a window resize. Time,
 * the network and the pixels themselves are not modelled.
 */
module ParallaxHero {
  import opened FrameSequence
  import opened ScrollMapper
  import opened CoverFit
  import Types

  /** Loaded frames after which playback starts (`threshold`). */
  const THRESHOLD: nat := 20

  /** The size of a decoded frame: a PNG image is at least one pixel wide and high. */
  type Pixels = x: int | x > 0 witness 1

  /** Where the fetch of one frame stands. */
  datatype FrameState = Pending | Loaded(width: Pixels, height: Pixels) | Failed

  /** One `HTMLImageElement` of the frame array. */
  datatype Frame = Frame(src: string, state: FrameState)

  /** `img.complete`: the fetch has finished, successfully or not. */
  predicate Complete(f: Frame)
    ensures Complete(f) <==> f.state.Loaded? || f.state.Failed?
  {
    !f.state.Pending?
  }

  /** `img.naturalWidth`: the decoded width, 0 until a successful load. */
  function NaturalWidth(f: Frame): (w: nat)
    ensures w > 0 <==> f.state.Loaded?
  {
    if f.state.Loaded? then f.state.width else 0
  }

  /** The guard in front of the drawing code: `img && img.complete && img.naturalWidth > 0`. */
  predicate Drawable(f: Frame)
    ensures Drawable(f) <==> f.state.Loaded?
  {
    Complete(f) && NaturalWidth(f) > 0
  }

  /** The number of successfully loaded frames. */
  function CountLoaded(frames: seq<Frame>): (n: nat)
    ensures n <= |frames|
  {
    if frames == [] then 0
    else (if frames[0].state.Loaded? then 1 else 0) + CountLoaded(frames[1..])
  }

  /** A frame array in which nothing has finished loading counts zero loaded frames. */
  lemma {:induction false} CountLoadedAllPending(frames: seq<Frame>)
    requires forall k :: 0 <= k < |frames| ==> frames[k].state.Pending?
    ensures CountLoaded(frames) == 0
  {
    if frames != [] {
      CountLoadedAllPending(frames[1..]);
    }
  }

  /** Settling one pending frame adds one to the count if it loaded and nothing if it failed. */
  lemma {:induction false} CountLoadedAfterSettle(frames: seq<Frame>, i: nat, st: FrameState)
    requires i < |frames| && frames[i].state.Pending?
    ensures CountLoaded(frames[i := Frame(frames[i].src, st)]) == CountLoaded(frames) + (if st.Loaded? then 1 else 0)
  {
    var updated := frames[i := Frame(frames[i].src, st)];
    if i > 0 {
      assert updated[1..] == frames[1..][i - 1 := Frame(frames[i].src, st)];
      CountLoadedAfterSettle(frames[1..], i - 1, st);
    } else {
      assert updated[1..] == frames[1..];
    }
  }

  /**
   * The loop of the preload effect: one pending image per frame, frame `i`
   * fetched from its frame URL and stored at position `i`.
   */
  method BuildFrames(url: string) returns (imgs: seq<Frame>)
    ensures |imgs| == TOTAL_FRAMES
    ensures forall i :: 0 <= i < |imgs| ==> imgs[i] == Frame(FrameUrl(url, i), Pending)
  {
    imgs := [];
    var i := 0;
    while i < TOTAL_FRAMES
      invariant 0 <= i <= TOTAL_FRAMES
      invariant |imgs| == i
      invariant forall k :: 0 <= k < i ==> imgs[k] == Frame(FrameUrl(url, k), Pending)
    {
      imgs := imgs + [Frame(FrameUrl(url, i), Pending)];
      i := i + 1;
    }
  }

  /**
   * What holds of each run: its counter never exceeds the number of frames,
   * and its `onload` handlers have called `setImagesLoaded(true)` once if the
   * counter has reached the threshold and never otherwise.
   */
  ghost predicate RunOk(count: nat, readyCalls: nat) {
    count <= TOTAL_FRAMES && readyCalls == if count >= THRESHOLD then 1 else 0
  }

  /** Every run, given by its counter and its ready calls, satisfies `RunOk`. */
  ghost predicate RunsOk(counts: seq<nat>, calls: seq<nat>) {
    |counts| == |calls| && forall r :: 0 <= r < |counts| ==> RunOk(counts[r], calls[r])
  }

  /**
   * One more load in run `r`, calling `setImagesLoaded(true)` exactly when
   * the counter reaches the threshold, keeps every run consistent.
   */
  lemma RunsOkAfterLoad(counts: seq<nat>, calls: seq<nat>, r: nat)
    requires RunsOk(counts, calls) && r < |counts| && counts[r] < TOTAL_FRAMES
    ensures RunsOk(counts[r := counts[r] + 1], calls[r := calls[r] + (if counts[r] + 1 == THRESHOLD then 1 else 0)])
    ensures calls[r] + (if counts[r] + 1 == THRESHOLD then 1 else 0) <= 1
  {
  }

  /** Frame `i` of `frames` is named after frame `i` of the folder `url`. */
  ghost predicate FramesOf(frames: seq<Frame>, url: string) {
    |frames| == TOTAL_FRAMES && forall i :: 0 <= i < |frames| ==> frames[i].src == FrameUrl(url, i)
  }

  /** A call made on the canvas's 2D context. */
  datatype CanvasOp =
    | ClearRect(x: int, y: int, width: int, height: int)
    | DrawImage(frame: nat, dest: Rect)


  /** Settling one frame keeps every frame's URL. */
  lemma FramesOfAfterSettle(frames: seq<Frame>, url: string, i: nat, st: FrameState)
    requires FramesOf(frames, url) && i < |frames|
    ensures FramesOf(frames[i := Frame(frames[i].src, st)], url)
  {
  }

  class Hero {
    /** `config.sequenceUrl`, the folder the current frames come from. */
    var sequenceUrl: string
    /** The `imagesLoaded` state: playback is enabled and the loading overlay hidden. */
    var imagesLoaded: bool
    /** `imagesRef.current`. */
    var images: seq<Frame>
    /** Which run of the preload effect is current; runs are numbered from 0 at mount. */
    var run: nat
    /** `loadedCount[r]` is the `loadedCount` variable in the closure of run `r`. */
    var loadedCount: seq<nat>
    /** The value of `imagesLoaded` in the render that started the current run, as its timeout reads it. */
    var capturedLoaded: bool
    /** The current run's safety timeout has fired. */
    var timeoutFired: bool
    /** `readyCalls[r]`: how often the `onload` handlers of run `r` have called `setImagesLoaded(true)`. */
    ghost var readyCalls: seq<nat>
    /** The canvas backing-store size, `canvas.width` and `canvas.height`. */
    var canvasWidth: nat
    var canvasHeight: nat
    /** Every call made on the canvas, oldest first. */
    var canvasOps: seq<CanvasOp>

    /**
     * The frame array holds every frame of the current folder in order; each
     * run's counter and ready calls agree; the current counter is the number
     * of loaded frames; and once the current run has reached the threshold,
     * or its timeout has acted, the flag is set.
     */
    ghost predicate Valid()
      reads this
    {
      && FramesOf(images, sequenceUrl)
      && |loadedCount| == run + 1 && RunsOk(loadedCount, readyCalls)
      && loadedCount[run] == CountLoaded(images)
      && (loadedCount[run] >= THRESHOLD ==> imagesLoaded)
      && (timeoutFired && !capturedLoaded ==> imagesLoaded)
    }

    /**
     * Mounting the component: the flag starts false, the first run of the
     * preload effect creates all frames (its closure sees the flag false),
     * and `resizeCanvas` sizes the canvas to the viewport.
     */
    constructor (url: string, innerWidth: nat, innerHeight: nat)
      ensures Valid()
      ensures sequenceUrl == url && !imagesLoaded && !capturedLoaded && !timeoutFired
      ensures run == 0 && loadedCount == [0] && readyCalls == [0]
      ensures forall i :: 0 <= i < |images| ==> images[i].state.Pending?
      ensures canvasWidth == innerWidth && canvasHeight == innerHeight && canvasOps == []
    {
      sequenceUrl := url;
      imagesLoaded := false;
      capturedLoaded := false;
      timeoutFired := false;
      var imgs := BuildFrames(url);
      CountLoadedAllPending(imgs);
      images := imgs;
      run := 0;
      loadedCount := [0];
      readyCalls := [0];
      canvasWidth := innerWidth;
      canvasHeight := innerHeight;
      canvasOps := [];
    }

    /**
     * A new `config.sequenceUrl`. When it differs from the current one the
     * previous run's timer is cleared and the effect runs again: its closure
     * captures the flag as it is now, the flag is reset, the frame array is
     * emptied and refilled with fresh pending frames, and a new counter starts
     * at 0. In-flight loads of older runs are not cancelled. An unchanged URL
     * does not re-run the effect.
     */
    method SetSequenceUrl(url: string)
      requires Valid()
      modifies this`sequenceUrl, this`imagesLoaded, this`images, this`run, this`loadedCount,
        this`capturedLoaded, this`timeoutFired, this`readyCalls
      ensures Valid()
      ensures url == old(sequenceUrl) ==>
        && sequenceUrl == old(sequenceUrl) && imagesLoaded == old(imagesLoaded) && images == old(images)
        && run == old(run) && loadedCount == old(loadedCount) && capturedLoaded == old(capturedLoaded)
        && timeoutFired == old(timeoutFired) && readyCalls == old(readyCalls)
      ensures url != old(sequenceUrl) ==>
        && sequenceUrl == url && run == old(run) + 1
        && !imagesLoaded && capturedLoaded == old(imagesLoaded) && !timeoutFired
        && loadedCount == old(loadedCount) + [0] && readyCalls == old(readyCalls) + [0]
        && (forall i :: 0 <= i < |images| ==> images[i].state.Pending?)
    {
      if url != sequenceUrl {
        capturedLoaded := imagesLoaded;
        imagesLoaded := false;
        images := [];
        var imgs := BuildFrames(url);
        CountLoadedAllPending(imgs);
        images := imgs;
        sequenceUrl := url;
        run := run + 1;
        loadedCount := loadedCount + [0];
        readyCalls := readyCalls + [0];
        timeoutFired := false;
      }
    }

    /**
     * `onload` of frame `i` of run `r` (the current run or an older one). The
     * run's own counter goes up by one, and the flag is set exactly when that
     * counter now equals the threshold: at most once per run. A load of an
     * older run still sets the flag when it is that run's twentieth.
     */
    method OnLoad(r: nat, i: nat, width: Pixels, height: Pixels)
      requires Valid()
      requires r <= run && i < TOTAL_FRAMES
      requires r == run ==> images[i].state.Pending?
      requires r < run ==> loadedCount[r] < TOTAL_FRAMES
      modifies this`loadedCount, this`images, this`readyCalls, this`imagesLoaded
      ensures Valid()
      ensures loadedCount == old(loadedCount)[r := old(loadedCount[r]) + 1]
      ensures imagesLoaded == (old(imagesLoaded) || loadedCount[r] == THRESHOLD)
      ensures readyCalls == old(readyCalls)[r := old(readyCalls[r]) + (if loadedCount[r] == THRESHOLD then 1 else 0)]
      ensures readyCalls[r] <= 1
      ensures images == if r == run then old(images)[i := Frame(old(images[i].src), Loaded(width, height))] else old(images)
    {
      if r == run {
        OnLoadCurrent(i, width, height);
      } else {
        OnLoadStale(r);
      }
    }

    /** `onload` of a frame of the current run. */
    method OnLoadCurrent(i: nat, width: Pixels, height: Pixels)
      requires Valid()
      requires i < TOTAL_FRAMES && images[i].state.Pending?
      modifies this`loadedCount, this`images, this`readyCalls, this`imagesLoaded
      ensures Valid()
      ensures loadedCount == old(loadedCount)[run := old(loadedCount[run]) + 1]
      ensures imagesLoaded == (old(imagesLoaded) || loadedCount[run] == THRESHOLD)
      ensures readyCalls == old(readyCalls)[run := old(readyCalls[run]) + (if loadedCount[run] == THRESHOLD then 1 else 0)]
      ensures images == old(images)[i := Frame(old(images[i].src), Loaded(width, height))]
    {
      var frames := images[i := Frame(images[i].src, Loaded(width, height))];
      CountLoadedAfterSettle(images, i, Loaded(width, height));
      assert CountLoaded(frames) <= |frames|;
      FramesOfAfterSettle(images, sequenceUrl, i, Loaded(width, height));
      RunsOkAfterLoad(loadedCount, readyCalls, run);
      var count := loadedCount[run] + 1;
      readyCalls := readyCalls[run := readyCalls[run] + (if count == THRESHOLD then 1 else 0)];
      loadedCount := loadedCount[run := count];
      images := frames;
      if count == THRESHOLD {
        imagesLoaded := true;
      }
    }

    /** `onload` of a frame of an older run: only that run's counter changes and, at its twentieth load, the flag. */
    method OnLoadStale(r: nat)
      requires Valid()
      requires r < run && loadedCount[r] < TOTAL_FRAMES
      modifies this`loadedCount, this`readyCalls, this`imagesLoaded
      ensures Valid()
      ensures loadedCount == old(loadedCount)[r := old(loadedCount[r]) + 1]
      ensures imagesLoaded == (old(imagesLoaded) || loadedCount[r] == THRESHOLD)
      ensures readyCalls == old(readyCalls)[r := old(readyCalls[r]) + (if loadedCount[r] == THRESHOLD then 1 else 0)]
    {
      RunsOkAfterLoad(loadedCount, readyCalls, r);
      var count := loadedCount[r] + 1;
      readyCalls := readyCalls[r := readyCalls[r] + (if count == THRESHOLD then 1 else 0)];
      loadedCount := loadedCount[r := count];
      if count == THRESHOLD {
        imagesLoaded := true;
      }
    }

    /**
     * `onerror` of frame `i` of run `r`: only logs a warning. The failed frame
     * of the current array is marked failed (`complete` with no natural width);
     * no counter and not the flag change.
     */
    method OnError(r: nat, i: nat)
      requires Valid()
      requires r <= run && i < TOTAL_FRAMES
      requires r == run ==> images[i].state.Pending?
      modifies this`images
      ensures Valid()
      ensures images == if r == run then old(images)[i := Frame(old(images[i].src), Failed)] else old(images)
      ensures loadedCount == old(loadedCount) && imagesLoaded == old(imagesLoaded)
    {
      if r == run {
        OnErrorCurrent(i);
      }
    }

    /** `onerror` of a frame of the current run: that frame is marked failed. */
    method OnErrorCurrent(i: nat)
      requires Valid()
      requires i < TOTAL_FRAMES && images[i].state.Pending?
      modifies this`images
      ensures Valid()
      ensures images == old(images)[i := Frame(old(images[i].src), Failed)]
    {
      CountLoadedAfterSettle(images, i, Failed);
      FramesOfAfterSettle(images, sequenceUrl, i, Failed);
      images := images[i := Frame(images[i].src, Failed)];
    }

    /**
     * The current run's safety timeout. It tests the flag as captured when
     * the run started, not the flag's present value: in the first run
     * (captured false) it always sets the flag; in a run started while the
     * flag was true it does nothing.
     */
    method OnTimeout()
      requires Valid() && !timeoutFired
      modifies this`timeoutFired, this`imagesLoaded
      ensures Valid()
      ensures timeoutFired
      ensures imagesLoaded == (old(imagesLoaded) || !capturedLoaded)
    {
      timeoutFired := true;
      if !capturedLoaded {
        imagesLoaded := true;
      }
    }

    /** `resizeCanvas`: the backing store takes the viewport's size. */
    method Resize(innerWidth: nat, innerHeight: nat)
      requires Valid()
      modifies this`canvasWidth, this`canvasHeight
      ensures Valid()
      ensures canvasWidth == innerWidth && canvasHeight == innerHeight
    {
      canvasWidth := innerWidth;
      canvasHeight := innerHeight;
    }

    /**
     * `handleScroll`: nothing happens before the flag is set. Afterwards the
     * scroll offset picks a frame; if that frame has loaded, the whole canvas
     * is cleared and then the frame is drawn into its cover rectangle;
     * otherwise the canvas keeps what it shows. Once the flag is set the
     * container must be taller than the viewport and the canvas non-empty:
     * the source divides by both; before that it returns without dividing.
     */
    method HandleScroll(scrollY: real, offsetTop: real, scrollHeight: real, innerHeight: real)
      requires Valid()
      requires imagesLoaded ==> scrollHeight > innerHeight && canvasWidth > 0 && canvasHeight > 0
      modifies this`canvasOps
      ensures Valid()
      ensures !imagesLoaded ==> canvasOps == old(canvasOps)
      ensures imagesLoaded ==>
        var k := FrameIndexAt(scrollY, offsetTop, ScrollEnd(offsetTop, scrollHeight, innerHeight));
        && (!Drawable(images[k]) ==> canvasOps == old(canvasOps))
        && (Drawable(images[k]) ==>
              canvasOps == old(canvasOps) + [
                ClearRect(0, 0, canvasWidth, canvasHeight),
                DrawImage(k, Cover(canvasWidth as real, canvasHeight as real,
                                   images[k].state.width as real, images[k].state.height as real))])
    {
      if !imagesLoaded {
        return;
      }
      var startY := offsetTop;
      var endY := ScrollEnd(startY, scrollHeight, innerHeight);
      var progress := Progress(scrollY, startY, endY);
      var frameIndex := FrameIndex(progress);
      if frameIndex < |images| && Drawable(images[frameIndex]) {
        var img := images[frameIndex];
        var dest := Cover(canvasWidth as real, canvasHeight as real, img.state.width as real, img.state.height as real);
        canvasOps := canvasOps + [ClearRect(0, 0, canvasWidth, canvasHeight)];
        canvasOps := canvasOps + [DrawImage(frameIndex, dest)];
      }
    }

    /**
     * A window resize. Both `resizeCanvas` and `handleScroll` listen for it;
     * whenever the flag is set, `handleScroll` was subscribed after
     * `resizeCanvas` (its effect re-subscribes on every flag change), so the
     * canvas is resized first and the redraw uses the new size.
     */
    method OnWindowResize(innerWidth: nat, innerHeight: nat, scrollY: real, offsetTop: real, scrollHeight: real)
      requires Valid()
      requires imagesLoaded ==> innerWidth > 0 && innerHeight > 0 && scrollHeight > innerHeight as real
      modifies this`canvasWidth, this`canvasHeight, this`canvasOps
      ensures Valid()
      ensures canvasWidth == innerWidth && canvasHeight == innerHeight
      ensures !imagesLoaded ==> canvasOps == old(canvasOps)
      ensures imagesLoaded ==>
        var k := FrameIndexAt(scrollY, offsetTop, ScrollEnd(offsetTop, scrollHeight, innerHeight as real));
        && (!Drawable(images[k]) ==> canvasOps == old(canvasOps))
        && (Drawable(images[k]) ==>
              canvasOps == old(canvasOps) + [
                ClearRect(0, 0, innerWidth, innerHeight),
                DrawImage(k, Cover(innerWidth as real, innerHeight as real,
                                   images[k].state.width as real, images[k].state.height as real))])
    {
      Resize(innerWidth, innerHeight);
      HandleScroll(scrollY, offsetTop, scrollHeight, innerHeight as real);
    }
  }

  /**
   * On mount the safety timeout enables playback even when no frame has
   * loaded, since the first run's closure saw the flag false.
   */
  method TimeoutOnMount(url: string) returns (ready: bool, loaded: nat)
    ensures ready && loaded == 0
  {
    var hero := new Hero(url, 1, 1);
    hero.OnTimeout();
    ready := hero.imagesLoaded;
    loaded := hero.loadedCount[hero.run];
  }

  /**
   * After switching to another sequence while playback was enabled, the new
   * run's timeout does nothing: its closure saw the flag true. Without loads
   * playback stays disabled.
   */
  method TimeoutAfterSwitchFromReady(url1: string, url2: string) returns (ready: bool)
    requires url1 != url2
    ensures !ready
  {
    var hero := new Hero(url1, 1, 1);
    hero.OnTimeout();
    hero.SetSequenceUrl(url2);
    hero.OnTimeout();
    ready := hero.imagesLoaded;
  }

  /**
   * Loads that arrive for the previous sequence after a switch still count in
   * that run's closure: twenty of them enable playback although no frame of
   * the new sequence has loaded.
   */
  method StaleLoadsEnablePlayback(url1: string, url2: string) returns (ready: bool, currentLoaded: nat)
    requires url1 != url2
    ensures ready && currentLoaded == 0
  {
    var hero := new Hero(url1, 1, 1);
    hero.SetSequenceUrl(url2);
    var n := 0;
    while n < THRESHOLD
      invariant 0 <= n <= THRESHOLD
      invariant hero.Valid() && hero.run == 1 && hero.loadedCount == [n, 0]
      invariant hero.imagesLoaded == (n == THRESHOLD)
    {
      hero.OnLoad(0, n, 1, 1);
      n := n + 1;
    }
    ready := hero.imagesLoaded;
    currentLoaded := hero.loadedCount[1];
  }

  /**
   * A timeout that enabled playback on mount, a switch, and then the
   * twentieth load of the first run (its requests were still in flight):
   * playback comes back on although the new run has loaded nothing and its
   * own timeout did nothing.
   */
  method StaleLoadsAfterTimeoutSwitch(url1: string, url2: string) returns (ready: bool, currentLoaded: nat)
    requires url1 != url2
    ensures ready && currentLoaded == 0
  {
    var hero := new Hero(url1, 1, 1);
    hero.OnTimeout();
    hero.SetSequenceUrl(url2);
    hero.OnTimeout();
    var n := 0;
    while n < THRESHOLD
      invariant 0 <= n <= THRESHOLD
      invariant hero.Valid() && hero.run == 1 && hero.loadedCount == [n, 0]
      invariant hero.imagesLoaded == (n == THRESHOLD)
    {
      hero.OnLoad(0, n, 1, 1);
      n := n + 1;
    }
    ready := hero.imagesLoaded;
    currentLoaded := hero.loadedCount[1];
  }

  /** Every frame URL of a picker entry is a file directly inside the entry's folder. */
  lemma SequenceFramesInFolder(s: Types.Sequence, i: nat)
    requires s in Types.SEQUENCES && i < TOTAL_FRAMES
    ensures FrameUrl(s.url, i)[..|s.url|] == s.url
    ensures FrameUrl(s.url, i)[|s.url| - 1] == '/'
    ensures forall k :: |s.url| <= k < |FrameUrl(s.url, i)| ==> FrameUrl(s.url, i)[k] != '/'
  {
    Types.SequenceUrlsAreFolders(s);
    FrameUrlInFolder(s.url, i);
  }
}
