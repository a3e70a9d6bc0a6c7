// The pacing and memoisation structures of PeformanceOptimizations.cpp:
// a 60-slot ring buffer of frame times and a time-limited image cache.

module Performance {
  import Geometry

  /** PerformanceMonitor::FRAME_HISTORY_SIZE. */
  const FRAME_HISTORY_SIZE: nat := 60

  /** ImageProcessingCache::CACHE_TIMEOUT_MS. */
  const CACHE_TIMEOUT_MS: int := 1000

  /** Sum of a sequence of frame times, accumulated front to back. */
  function Sum(s: seq<real>): real
  {
    if s == [] then 0.0 else Sum(s[..|s| - 1]) + s[|s| - 1]
  }

  /** The arithmetic mean, 0 for no samples. */
  function Mean(s: seq<real>): real
  {
    if |s| == 0 then 0.0 else Sum(s) / |s| as real
  }

  /** Frames per second for an average frame time in milliseconds: 0 when
      there is no positive average. */
  function Fps(avgMs: real): (r: real)
    ensures avgMs > 0.0 ==> r > 0.0 && r * avgMs == 1000.0
    ensures avgMs <= 0.0 ==> r == 0.0
  {
    if avgMs > 0.0 then 1000.0 / avgMs else 0.0
  }

  lemma {:induction false} SumAppend(a: seq<real>, b: seq<real>)
    ensures Sum(a + b) == Sum(a) + Sum(b)
    decreases |b|
  {
    if b == [] {
      assert a + b == a;
    } else {
      assert (a + b)[..|a + b| - 1] == a + b[..|b| - 1];
      SumAppend(a, b[..|b| - 1]);
    }
  }

  /** A rotation keeps the sum. */
  lemma RotationSum(w: seq<real>, j: nat)
    requires j <= |w|
    ensures Sum(w[j..] + w[..j]) == Sum(w)
  {
    SumAppend(w[j..], w[..j]);
    SumAppend(w[..j], w[j..]);
    assert w == w[..j] + w[j..];
  }

  /** Non-negative frame times have a non-negative sum, so a non-negative mean. */
  lemma {:induction false} SumNonNegative(s: seq<real>)
    requires forall i :: 0 <= i < |s| ==> s[i] >= 0.0
    ensures Sum(s) >= 0.0 && Mean(s) >= 0.0
  {
    if s != [] {
      SumNonNegative(s[..|s| - 1]);
    }
  }

  /** n samples of the same frame time c sum to n * c, so their mean is c. */
  lemma {:induction false} SumConstant(s: seq<real>, c: real)
    requires forall i :: 0 <= i < |s| ==> s[i] == c
    ensures Sum(s) == |s| as real * c
    ensures |s| > 0 ==> Mean(s) == c
  {
    if s != [] {
      SumConstant(s[..|s| - 1], c);
    }
  }

  /** The slot a frame number is written to. */
  function SlotOf(frame: nat): nat
  {
    frame % FRAME_HISTORY_SIZE
  }

  /** The frame number whose time sits in slot s after n frames: slots below
      the next write position hold the current lap, the others the previous one. */
  function SlotSource(s: nat, n: nat): int
  {
    if s < n % FRAME_HISTORY_SIZE then n - n % FRAME_HISTORY_SIZE + s
    else n - n % FRAME_HISTORY_SIZE + s - FRAME_HISTORY_SIZE
  }

  /** One more frame: the slot just written now holds frame n, every other
      slot keeps its frame. */
  lemma SlotSourceStep(s: nat, n: nat)
    requires s < FRAME_HISTORY_SIZE
    ensures s == SlotOf(n) ==> SlotSource(s, n + 1) == n
    ensures s != SlotOf(n) ==> SlotSource(s, n + 1) == SlotSource(s, n)
  {
    var k := n % FRAME_HISTORY_SIZE;
    if k == FRAME_HISTORY_SIZE - 1 {
      assert (n + 1) % FRAME_HISTORY_SIZE == 0;
    } else {
      assert (n + 1) % FRAME_HISTORY_SIZE == k + 1;
    }
  }

  /** std::min(frameIndex, FRAME_HISTORY_SIZE). */
  function FilledCount(n: nat): (r: nat)
    ensures r <= n && r <= FRAME_HISTORY_SIZE
    ensures r == n || r == FRAME_HISTORY_SIZE
  {
    if n < FRAME_HISTORY_SIZE then n else FRAME_HISTORY_SIZE
  }

  /** The frame-time monitor. `history` is the ghost record of every frame
      time ever measured; the ring buffer keeps the last 60 of them. */
  class PerformanceMonitor {
    const frameTimes: array<real>
    var frameIndex: nat
    var lastFrameTime: real
    ghost var history: seq<real>

    ghost predicate Valid()
      reads this, frameTimes
    {
      && frameTimes.Length == FRAME_HISTORY_SIZE
      && |history| == frameIndex
      && (forall i :: 0 <= i < |history| ==> history[i] >= 0.0)
      && (forall s :: 0 <= s < FilledCount(frameIndex) ==>
            0 <= SlotSource(s, frameIndex) < frameIndex
            && frameTimes[s] == history[SlotSource(s, frameIndex)])
      && (forall s :: FilledCount(frameIndex) <= s < FRAME_HISTORY_SIZE ==> frameTimes[s] == 0.0)
    }

    /** The frame times the average is taken over. */
    function Filled(): seq<real>
      reads this, frameTimes
      requires Valid()
    {
      frameTimes[..FilledCount(frameIndex)]
    }

    /** The most recent min(frameIndex, 60) frame times, oldest first. */
    ghost function Recent(): seq<real>
      reads this
      requires |history| >= FilledCount(frameIndex)
    {
      history[|history| - FilledCount(frameIndex)..]
    }

    /** Sixty zeroed slots, no frame recorded yet. */
    constructor(now: real)
      ensures Valid()
      ensures fresh(frameTimes)
      ensures frameIndex == 0 && lastFrameTime == now && history == []
      ensures frameTimes[..] == seq(FRAME_HISTORY_SIZE, _ => 0.0)
    {
      frameTimes := new real[FRAME_HISTORY_SIZE](_ => 0.0);
      frameIndex := 0;
      lastFrameTime := now;
      history := [];
    }

    /** Records the time since the previous frame in slot frameIndex % 60.
        `now` is a steady-clock reading, never earlier than the previous one. */
    method FrameStart(now: real)
      requires Valid() && now >= lastFrameTime
      modifies this, frameTimes
      ensures Valid()
      ensures frameTimes[..] == old(frameTimes[..])[SlotOf(old(frameIndex)) := now - old(lastFrameTime)]
      ensures frameIndex == old(frameIndex) + 1 && lastFrameTime == now
      ensures history == old(history) + [now - old(lastFrameTime)]
    {
      ghost var n := frameIndex;
      frameTimes[frameIndex % FRAME_HISTORY_SIZE] := now - lastFrameTime;
      history := history + [now - lastFrameTime];
      frameIndex := frameIndex + 1;
      lastFrameTime := now;
      forall s | 0 <= s < FilledCount(frameIndex)
        ensures 0 <= SlotSource(s, frameIndex) < frameIndex
        ensures frameTimes[s] == history[SlotSource(s, frameIndex)]
      {
        SlotSourceStep(s, n);
      }
    }

    /** The buffer's filled slots are a rotation of the most recent frame
        times, so both have the same sum. */
    lemma FilledSumIsRecentSum()
      requires Valid()
      ensures |Filled()| == |Recent()|
      ensures Sum(Filled()) == Sum(Recent())
    {
      var n := frameIndex;
      if n < FRAME_HISTORY_SIZE {
        assert Filled() == Recent();
      } else {
        var w := Recent();
        var j := FRAME_HISTORY_SIZE - n % FRAME_HISTORY_SIZE;
        assert Filled() == w[j..] + w[..j];
        RotationSum(w, j);
      }
    }

    /** The mean of the filled slots, which is the mean of the most recent
        min(frameIndex, 60) frame times; 0 before the first frame. */
    method GetAverageFrameTime() returns (avg: real)
      requires Valid()
      ensures avg == Mean(Filled())
      ensures avg == Mean(Recent()) && avg >= 0.0
      ensures frameIndex == 0 ==> avg == 0.0
    {
      var sum := 0.0;
      var count := if frameIndex < FRAME_HISTORY_SIZE then frameIndex else FRAME_HISTORY_SIZE;
      var i := 0;
      while i < count
        invariant 0 <= i <= count
        invariant sum == Sum(frameTimes[..i])
      {
        assert frameTimes[..i + 1][..i] == frameTimes[..i];
        sum := sum + frameTimes[i];
        i := i + 1;
      }
      assert frameTimes[..count] == Filled();
      avg := if count > 0 then sum / count as real else 0.0;
      FilledSumIsRecentSum();
      SumNonNegative(Recent());
    }

    /** 1000 / average frame time, or 0 when the average is not positive. */
    method GetFPS() returns (fps: real)
      requires Valid()
      ensures fps == Fps(Mean(Recent()))
      ensures fps >= 0.0
      ensures Mean(Recent()) > 0.0 ==> fps * Mean(Recent()) == 1000.0
    {
      var avgFrameTime := GetAverageFrameTime();
      fps := if avgFrameTime > 0.0 then 1000.0 / avgFrameTime else 0.0;
    }
  }

  /** Four frames 10 ms apart average 10 ms, that is 100 frames per second. */
  method FourFramesOfTenMs() returns (avg: real, fps: real)
    ensures avg == 10.0 && fps == 100.0
  {
    var monitor := new PerformanceMonitor(0.0);
    monitor.FrameStart(10.0);
    monitor.FrameStart(20.0);
    monitor.FrameStart(30.0);
    monitor.FrameStart(40.0);
    assert monitor.Filled() == [10.0, 10.0, 10.0, 10.0];
    SumConstant(monitor.Filled(), 10.0);
    avg := monitor.GetAverageFrameTime();
    fps := monitor.GetFPS();
  }

  /** The entries of a cache whose age at `now` is at most the timeout. */
  function Fresh<K>(timestamps: map<K, int>, now: int): (r: set<K>)
    ensures r <= timestamps.Keys
    ensures forall k :: k in timestamps ==> (k in r <==> now - timestamps[k] <= CACHE_TIMEOUT_MS)
  {
    set k | k in timestamps && now - timestamps[k] <= CACHE_TIMEOUT_MS
  }

  function Restrict<K, V>(m: map<K, V>, keep: set<K>): map<K, V>
  {
    map k | k in m && k in keep :: m[k]
  }

  /** What computeHash reads of an image besides its size: its OpenCV type
      and the channel sums of the pixels at (rows/4, cols/4), (rows/2,
      cols/2) and (3*rows/4, 3*cols/4). A channel sum of an 8-bit
      three-channel pixel is at most 765. */
  datatype ImageProbe = ImageProbe(imageType: nat, sample1: nat, sample2: nat, sample3: nat)

  const MAX_CHANNEL_SUM: nat := 765

  /** size_t is 64 bits wide; std::hash<int> is the identity on a
      non-negative int. */
  const SIZE_T_MODULUS: nat := 0x1_0000_0000_0000_0000

  function Pow2(k: nat): (r: nat)
    ensures r >= 1
  {
    if k == 0 then 1 else 2 * Pow2(k - 1)
  }

  /** x << k on a size_t: the bits shifted past the 64th are lost. */
  function Shl(x: nat, k: nat): nat
  {
    (x * Pow2(k)) % SIZE_T_MODULUS
  }

  /** Bitwise exclusive or, bit by bit from the lowest. */
  function Xor(a: nat, b: nat): (r: nat)
    decreases a + b
  {
    if a == 0 then b
    else if b == 0 then a
    else 2 * Xor(a / 2, b / 2) + (if a % 2 == b % 2 then 0 else 1)
  }

  /** XOR with a fixed operand is injective. */
  lemma XorInjective(u: nat, v: nat, c: nat)
    ensures Xor(u, c) == Xor(v, c) <==> u == v
  {
    if Xor(u, c) == Xor(v, c) {
      XorCancels(u, v, c);
    }
  }

  lemma {:induction false} XorCancels(u: nat, v: nat, c: nat)
    requires Xor(u, c) == Xor(v, c)
    ensures u == v
    decreases u + v + c
  {
    if c != 0 && u != 0 && v != 0 {
      HalvesAgree(u, v, c);
      XorCancels(u / 2, v / 2, c / 2);
    } else if c != 0 && u != 0 {
      XorNonZeroOperand(u, c);
    } else if c != 0 && v != 0 {
      XorNonZeroOperand(v, c);
    }
  }

  /** Equal XORs with the same non-zero operand agree in their lowest bit
      and in the XOR of the remaining bits. */
  lemma HalvesAgree(u: nat, v: nat, c: nat)
    requires u != 0 && v != 0 && c != 0 && Xor(u, c) == Xor(v, c)
    ensures u % 2 == v % 2 && Xor(u / 2, c / 2) == Xor(v / 2, c / 2)
  {
  }

  /** A non-zero operand changes the other one. */
  lemma {:induction false} XorNonZeroOperand(v: nat, c: nat)
    requires v != 0
    ensures Xor(v, c) != c
    decreases v + c
  {
    if c != 0 && v % 2 == 0 {
      XorNonZeroOperand(v / 2, c / 2);
    }
  }

  lemma XorCommutes(a: nat, b: nat)
    ensures Xor(a, b) == Xor(b, a)
    decreases a + b
  {
    if a != 0 && b != 0 {
      XorCommutes(a / 2, b / 2);
    }
  }

  /** The part of computeHash's key every non-empty image gets: rows, cols
      shifted by 1 and the type shifted by 2, XORed together. */
  function ShapeHash(input: Geometry.Frame, imageType: nat): nat
  {
    Xor(Xor(input.rows % SIZE_T_MODULUS, Shl(input.cols, 1)), Shl(imageType, 2))
  }

  /** computeHash: 0 for an empty image; otherwise the shape hash, and for
      images larger than 10 by 10 also the three sampled channel sums
      shifted by 3, 4 and 5 XORed in. */
  function ComputeHash(input: Geometry.Frame, probe: ImageProbe): (h: nat)
    ensures Geometry.IsEmpty(input) ==> h == 0
  {
    if Geometry.IsEmpty(input) then 0
    else
      var shape := ShapeHash(input, probe.imageType);
      if input.rows > 10 && input.cols > 10 then
        Xor(Xor(Xor(shape, Shl(probe.sample1, 3)), Shl(probe.sample2, 4)), Shl(probe.sample3, 5))
      else shape
  }

  /** Images no larger than 10 in some dimension are not sampled: images of
      the same size and type share a key whatever their pixels. */
  lemma SmallImagesShareKey(input: Geometry.Frame, p: ImageProbe, q: ImageProbe)
    requires input.rows <= 10 || input.cols <= 10
    requires p.imageType == q.imageType
    ensures ComputeHash(input, p) == ComputeHash(input, q)
  {
  }

  /** In a sampled image, changing one sampled pixel's channel sum (the
      others kept) changes the key. */
  lemma SampleChangesKey(input: Geometry.Frame, p: ImageProbe, q: ImageProbe)
    requires input.rows > 10 && input.cols > 10
    requires p.imageType == q.imageType
    requires p.sample1 <= MAX_CHANNEL_SUM && q.sample1 <= MAX_CHANNEL_SUM
    requires p.sample2 == q.sample2 && p.sample3 == q.sample3
    ensures ComputeHash(input, p) == ComputeHash(input, q) <==> p.sample1 == q.sample1
  {
    if ComputeHash(input, p) == ComputeHash(input, q) {
      SameKeySameSample(input, p, q);
    }
  }

  lemma SameKeySameSample(input: Geometry.Frame, p: ImageProbe, q: ImageProbe)
    requires input.rows > 10 && input.cols > 10
    requires p.imageType == q.imageType
    requires p.sample1 <= MAX_CHANNEL_SUM && q.sample1 <= MAX_CHANNEL_SUM
    requires p.sample2 == q.sample2 && p.sample3 == q.sample3
    requires ComputeHash(input, p) == ComputeHash(input, q)
    ensures p.sample1 == q.sample1
  {
    var shape := ShapeHash(input, p.imageType);
    var a, b := Shl(p.sample1, 3), Shl(q.sample1, 3);
    var two, three := Shl(p.sample2, 4), Shl(p.sample3, 5);
    assert Xor(Xor(Xor(shape, a), two), three) == Xor(Xor(Xor(shape, b), two), three);
    XorCancels(Xor(Xor(shape, a), two), Xor(Xor(shape, b), two), three);
    XorCancels(Xor(shape, a), Xor(shape, b), two);
    XorCommutes(shape, a);
    XorCommutes(shape, b);
    XorCancels(a, b, shape);
    ShlSmall(p.sample1, 3);
    ShlSmall(q.sample1, 3);
  }

  /** A shift that loses no bits multiplies by the power of two. */
  lemma ShlSmall(x: nat, k: nat)
    requires x * Pow2(k) < SIZE_T_MODULUS
    ensures Shl(x, k) == x * Pow2(k)
  {
  }

  /** The sampled sums are mixed by XOR at neighbouring shifts, so images
      whose samples differ can collide: in any sampled image, channel sums
      (2, 0, 0) and (0, 1, 0) give the same key, and the cache serves one
      image's result for the other. */
  lemma NeighbouringSamplesCollide(input: Geometry.Frame, imageType: nat)
    requires input.rows > 10 && input.cols > 10
    ensures ComputeHash(input, ImageProbe(imageType, 2, 0, 0)) == ComputeHash(input, ImageProbe(imageType, 0, 1, 0))
  {
    SampledHash(input, ImageProbe(imageType, 2, 0, 0));
    SampledHash(input, ImageProbe(imageType, 0, 1, 0));
    assert Pow2(3) == 8 && Pow2(4) == 16;
    ShlSmall(2, 3);
    ShlSmall(1, 4);
  }

  /** The key of a sampled image, the three sums shifted in. */
  lemma SampledHash(input: Geometry.Frame, p: ImageProbe)
    requires input.rows > 10 && input.cols > 10
    ensures ComputeHash(input, p)
            == Xor(Xor(Xor(ShapeHash(input, p.imageType), Shl(p.sample1, 3)), Shl(p.sample2, 4)), Shl(p.sample3, 5))
  {
  }

  /** The image cache: processed results and their insertion times, kept in
      two maps over the same keys. */
  class ImageProcessingCache<V> {
    var processedImages: map<nat, V>
    var cacheTimestamps: map<nat, int>

    ghost predicate Valid()
      reads this
    {
      processedImages.Keys == cacheTimestamps.Keys
    }

    /** A lookup is served from the cache exactly when the key is present and
        younger than the timeout. */
    predicate IsHit(key: nat, now: int)
      reads this
    {
      key in processedImages && key in cacheTimestamps
      && now - cacheTimestamps[key] < CACHE_TIMEOUT_MS
    }

    constructor()
      ensures Valid() && processedImages == map[] && cacheTimestamps == map[]
    {
      processedImages := map[];
      cacheTimestamps := map[];
    }

    /** getOrProcess reads the steady clock three times: `now` for the age
        check, `stampNow` after the processor has run for the new entry's
        timestamp, and `cleanNow` inside cleanOldEntries. A fresh hit returns
        the stored value untouched; otherwise the processor's result is stored
        under the key stamped `stampNow`, and entries older than the timeout
        at `cleanNow` are evicted from both maps, the new one included when
        the processor took longer than the timeout. */
    method GetOrProcess(input: Geometry.Frame, probe: ImageProbe, processor: Geometry.Frame -> V,
                        now: int, stampNow: int, cleanNow: int)
      returns (result: V, computed: bool)
      requires Valid()
      requires now <= stampNow <= cleanNow  // a steady clock never goes back
      modifies this
      ensures Valid()
      ensures var key := ComputeHash(input, probe);
        computed <==> !old(IsHit(key, now))
      ensures var key := ComputeHash(input, probe);
        !computed ==> (result == old(processedImages)[key]
          && processedImages == old(processedImages) && cacheTimestamps == old(cacheTimestamps))
      ensures var key := ComputeHash(input, probe);
        computed ==> (result == processor(input)
          && cacheTimestamps == Restrict(old(cacheTimestamps)[key := stampNow], Fresh(old(cacheTimestamps)[key := stampNow], cleanNow))
          && processedImages == Restrict(old(processedImages)[key := result], Fresh(old(cacheTimestamps)[key := stampNow], cleanNow))
          && (key in processedImages <==> cleanNow - stampNow <= CACHE_TIMEOUT_MS)
          && (key in processedImages ==> processedImages[key] == result))
    {
      var hash := ComputeHash(input, probe);
      if hash in processedImages {
        var age := now - cacheTimestamps[hash];
        if age < CACHE_TIMEOUT_MS {
          return processedImages[hash], false;
        }
      }
      result := processor(input);
      computed := true;
      processedImages := processedImages[hash := result];
      cacheTimestamps := cacheTimestamps[hash := stampNow];
      CleanOldEntries(cleanNow);
    }

    /** cleanOldEntries: removes from both maps exactly the entries whose age
        exceeds the timeout; an entry aged exactly the timeout stays. */
    method CleanOldEntries(now: int)
      requires Valid()
      modifies this
      ensures Valid()
      ensures cacheTimestamps == Restrict(old(cacheTimestamps), Fresh(old(cacheTimestamps), now))
      ensures processedImages == Restrict(old(processedImages), Fresh(old(cacheTimestamps), now))
    {
      var pending := cacheTimestamps.Keys;
      ghost var keep := Fresh(old(cacheTimestamps), now);
      while pending != {}
        invariant Valid()
        invariant pending <= old(cacheTimestamps).Keys
        invariant cacheTimestamps == Restrict(old(cacheTimestamps), pending + keep)
        invariant processedImages == Restrict(old(processedImages), pending + keep)
        decreases pending
      {
        var k :| k in pending;
        if now - cacheTimestamps[k] > CACHE_TIMEOUT_MS {
          processedImages := map j | j in processedImages && j != k :: processedImages[j];
          cacheTimestamps := map j | j in cacheTimestamps && j != k :: cacheTimestamps[j];
        }
        pending := pending - {k};
      }
    }
  }

  /** The boundary between the two comparisons: an entry stored at time 0 is
      served at 999 ms, recomputed at exactly 1000 ms (not a hit), and yet an
      entry aged exactly 1000 ms survives eviction. */
  method CacheTimeoutBoundary(frame: Geometry.Frame, probe: ImageProbe, processor: Geometry.Frame -> int)
    returns (servedAt999: bool, servedAt1000: bool, keptAt1000: bool)
    ensures servedAt999 && !servedAt1000 && keptAt1000
  {
    var cache := new ImageProcessingCache<int>();
    var r, computed := cache.GetOrProcess(frame, probe, processor, 0, 0, 0);
    r, computed := cache.GetOrProcess(frame, probe, processor, 999, 999, 999);
    servedAt999 := !computed;
    var key := ComputeHash(frame, probe);
    keptAt1000 := key in Fresh(cache.cacheTimestamps, 1000);
    r, computed := cache.GetOrProcess(frame, probe, processor, 1000, 1000, 1000);
    servedAt1000 := !computed;
  }
}
