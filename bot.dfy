// MinecraftBot.cpp and the capture throttle of OptimizedMinecraftBot
// (PeformanceOptimizations.cpp): the mining state, block selection and
// classification, the captured game state and the input the bot sends.

module Bot {
  import opened Wrappers
  import opened CNumerics
  import opened Geometry
  import opened Humanization
  import opened Players
  import opened Chat

  datatype ActionType = MineBlock | MoveToPosition | LookAround | SwitchTool | Idle

  /** MinecraftBot::GameState. The player position and look direction are
      never written by the bot and are left out. */
  datatype GameState = GameState(screenshot: Frame, currentTool: string, detectedBlocks: seq<Rect>,
                                 isBlockBroken: bool, currentBlockType: string,
                                 nearbyPlayers: seq<Player>, shouldRespondToPlayer: bool,
                                 pendingChatResponse: string)

  const InitialState := GameState(EmptyFrame, "", [], false, "", [], false, "")

  /** The mean colour of a region, channels in OpenCV's B, G, R order. */
  datatype MeanColour = MeanColour(c0: real, c1: real, c2: real)

  /** What the bot sends to the game: relative mouse moves, left clicks,
      key presses and the sleeps between them, each in order. */
  datatype Output = Output(mouseMoves: seq<(int, int)>, clicks: nat, keys: seq<int>, sleeps: seq<int>)

  const NoOutput := Output([], 0, [], [])

  /** The random draws and the cursor reading StartMining consumes. */
  datatype MiningDraws = MiningDraws(cursor: Point, curve: CurveDraws, jitterX: real, jitterY: real,
                                     delayDraw: int)

  /** The draws lie in the ranges of their distributions. */
  predicate DrawsFit(dr: MiningDraws, h: HumanizationEngine)
    reads h
  {
    DrawsInRange(dr.curve, h.HumanFactor())
    && RealAbs(dr.jitterX) <= h.HumanFactor() && RealAbs(dr.jitterY) <= h.HumanFactor()
    && -h.reactionVariance <= dr.delayDraw <= h.reactionVariance
  }

  const CAPTURE_INTERVAL_MS: int := 100
  const DEFAULT_ACTION_DELAY_MS: int := 150

  /** A block farther than this (in pixels) from the current target is a
      new target. */
  const NEXT_BLOCK_DISTANCE: real := 10.0

  /** The virtual-key code of the '1' key (hot-bar slot 1, the pickaxe). */
  const KEY_SLOT_1: int := 0x31
  const KEY_PRESS_MS: int := 50
  const IDLE_SLEEP_MS: int := 100

  // ----- Block filter (DetectBlocks) -----

  /** A contour's bounding box is block-like when both sides are strictly
      between 20 and 100 and the height-to-width ratio is strictly between
      0.8 and 1.2. */
  predicate BlockLike(r: Rect)
  {
    r.width > 20 && r.width < 100 && r.height > 20 && r.height < 100
    && 0.8 < r.height as real / r.width as real < 1.2
  }

  /** For a positive denominator, comparing the quotient with a bound is
      comparing the numerator with the scaled bound. */
  lemma QuotientCompare(h: real, w: real, k: real)
    requires w > 0.0
    ensures h / w > k <==> h > k * w
    ensures h / w < k <==> h < k * w
  {
    var q := h / w;
    assert q * w == h;
    if q > k {
      var p := PositiveProductOf(q - k, w);
    } else {
      NonNegativeProduct(k - q, w);
    }
    if q < k {
      var p := PositiveProductOf(k - q, w);
    } else {
      NonNegativeProduct(q - k, w);
    }
  }

  /** The aspect test in integers: 4w < 5h < 6w. */
  lemma BlockLikeIntegerForm(r: Rect)
    ensures BlockLike(r) <==>
      20 < r.width < 100 && 20 < r.height < 100 && 4 * r.width < 5 * r.height < 6 * r.width
  {
    if r.width > 0 {
      QuotientCompare(r.height as real, r.width as real, 0.8);
      QuotientCompare(r.height as real, r.width as real, 1.2);
    }
  }

  /** The block-like rectangles, in contour order. */
  function KeptBlocks(candidates: seq<Rect>): (r: seq<Rect>)
    ensures |r| <= |candidates|
  {
    if candidates == [] then []
    else
      var n := |candidates| - 1;
      var prev := KeptBlocks(candidates[..n]);
      if BlockLike(candidates[n]) then prev + [candidates[n]] else prev
  }

  lemma {:induction false} KeptBlocksMembers(candidates: seq<Rect>)
    ensures forall r :: r in KeptBlocks(candidates) <==> r in candidates && BlockLike(r)
  {
    if candidates != [] {
      var n := |candidates| - 1;
      KeptBlocksMembers(candidates[..n]);
      assert candidates == candidates[..n] + [candidates[n]];
    }
  }

  /** Filtering twice keeps the same blocks. */
  lemma {:induction false} KeptBlocksIdempotent(candidates: seq<Rect>)
    ensures KeptBlocks(KeptBlocks(candidates)) == KeptBlocks(candidates)
  {
    if candidates != [] {
      var n := |candidates| - 1;
      KeptBlocksIdempotent(candidates[..n]);
      var prev := KeptBlocks(candidates[..n]);
      if BlockLike(candidates[n]) {
        assert (prev + [candidates[n]])[..|prev|] == prev;
      }
    }
  }

  /** DetectBlocks with `candidates` the bounding boxes of the contours the
      edge detector finds: no blocks for an empty image, otherwise the
      block-like boxes in order. */
  method DetectBlocks(image: Frame, candidates: seq<Rect>) returns (blocks: seq<Rect>)
    ensures IsEmpty(image) ==> blocks == []
    ensures !IsEmpty(image) ==> blocks == KeptBlocks(candidates)
    ensures forall r :: r in blocks ==> r in candidates && BlockLike(r)
  {
    blocks := [];
    if IsEmpty(image) {
      return;
    }
    var i := 0;
    while i < |candidates|
      invariant 0 <= i <= |candidates|
      invariant blocks == KeptBlocks(candidates[..i])
    {
      assert candidates[..i + 1][..i] == candidates[..i];
      var boundingRect := candidates[i];
      if boundingRect.width > 20 && boundingRect.width < 100
         && boundingRect.height > 20 && boundingRect.height < 100 {
        var aspectRatio := boundingRect.height as real / boundingRect.width as real;
        if aspectRatio > 0.8 && aspectRatio < 1.2 {
          blocks := blocks + [boundingRect];
        }
      }
      i := i + 1;
    }
    assert candidates[..i] == candidates;
    KeptBlocksMembers(candidates);
  }

  // ----- Block classification (IdentifyBlockType) -----

  /** The region lies strictly inside the image (touching the right or
      bottom edge counts as outside). */
  predicate StrictlyInside(region: Rect, image: Frame)
  {
    !(region.x + region.width >= image.cols || region.y + region.height >= image.rows
      || region.x < 0 || region.y < 0)
  }

  /** IdentifyBlockType with `mean` the region's mean colour. The colour
      rules are tried in order, but no colour satisfies two of them, so each
      name is returned exactly when its own rule holds. */
  function IdentifyBlockType(blockRegion: Rect, image: Frame, mean: MeanColour): (r: string)
    ensures !StrictlyInside(blockRegion, image) ==> r == "unknown"
    ensures r == "bedrock" <==>
      StrictlyInside(blockRegion, image) && mean.c0 < 50.0 && mean.c1 < 50.0 && mean.c2 < 50.0
    ensures r == "redstone_ore" <==>
      StrictlyInside(blockRegion, image) && mean.c2 > 200.0 && mean.c0 < 100.0 && mean.c1 < 100.0
    ensures r == "stone" <==>
      StrictlyInside(blockRegion, image) && mean.c0 > 150.0 && mean.c1 > 150.0 && mean.c2 > 150.0
    ensures r == "emerald_ore" <==>
      StrictlyInside(blockRegion, image) && mean.c1 > 180.0 && mean.c0 < 100.0 && mean.c2 < 100.0
    ensures r == "gold_ore" <==>
      StrictlyInside(blockRegion, image) && mean.c0 > 200.0 && mean.c1 > 200.0 && mean.c2 < 100.0
    ensures r in {"unknown", "bedrock", "redstone_ore", "stone", "emerald_ore", "gold_ore"}
  {
    if !StrictlyInside(blockRegion, image) then "unknown"
    else if mean.c0 < 50.0 && mean.c1 < 50.0 && mean.c2 < 50.0 then "bedrock"
    else if mean.c2 > 200.0 && mean.c0 < 100.0 && mean.c1 < 100.0 then "redstone_ore"
    else if mean.c0 > 150.0 && mean.c1 > 150.0 && mean.c2 > 150.0 then "stone"
    else if mean.c1 > 180.0 && mean.c0 < 100.0 && mean.c2 < 100.0 then "emerald_ore"
    else if mean.c0 > 200.0 && mean.c1 > 200.0 && mean.c2 < 100.0 then "gold_ore"
    else "unknown"
  }

  // ----- Mining time (IsBlockBroken) -----

  /** `elapsed >= 1000.0 / miningSpeed` in IEEE arithmetic: a zero speed
      gives an infinite mining time, which is never reached. */
  predicate MiningTimeReached(elapsedMs: int, miningSpeed: real)
  {
    miningSpeed != 0.0 && elapsedMs as real >= 1000.0 / miningSpeed
  }

  /** With a positive speed the block breaks once elapsed time times speed
      reaches 1000, and stays broken from then on. */
  lemma MiningTimeReachedIff(elapsedMs: int, laterMs: int, miningSpeed: real)
    requires miningSpeed > 0.0 && elapsedMs <= laterMs
    ensures MiningTimeReached(elapsedMs, miningSpeed) <==> elapsedMs as real * miningSpeed >= 1000.0
    ensures MiningTimeReached(elapsedMs, miningSpeed) ==> MiningTimeReached(laterMs, miningSpeed)
  {
    var e := elapsedMs as real;
    var t := 1000.0 / miningSpeed;
    assert t * miningSpeed == 1000.0;
    if e >= t {
      NonNegativeProduct(e - t, miningSpeed);
    } else {
      var p := PositiveProductOf(t - e, miningSpeed);
    }
  }

  /** How far the cursor move may land from 0.8096 of the way to the target:
      the curve's deviation for a move of `distance`, one jitter step and one
      pixel of truncation. */
  function MoveSlack(humanFactor: real, distance: real): real
  {
    0.02304 * humanFactor * distance + humanFactor + 1.0
  }

  /** The relative mouse move StartMining sends through SendMouseMove: the
      humanised waypoint (in closed form) relative to the cursor, plus the
      jitter, truncated to whole pixels. */
  function MiningMove(cursor: Point, target: Point, dr: MiningDraws, distance: real): (int, int)
  {
    var delta := Minus(CurvePoint(cursor, target, dr.curve, distance), cursor);
    (TruncReal(delta.x + dr.jitterX), TruncReal(delta.y + dr.jitterY))
  }

  lemma TruncatedWithinSlack(cursor: Point, target: Point, p: Point, jx: real, jy: real, hf: real, distance: real)
    requires RealAbs(p.x - Straight(cursor, target).x) <= 0.02304 * hf * distance
    requires RealAbs(p.y - Straight(cursor, target).y) <= 0.02304 * hf * distance
    requires RealAbs(jx) <= hf && RealAbs(jy) <= hf
    ensures RealAbs(TruncReal(p.x - cursor.x + jx) as real - 0.8096 * (target.x - cursor.x)) <= MoveSlack(hf, distance)
    ensures RealAbs(TruncReal(p.y - cursor.y + jy) as real - 0.8096 * (target.y - cursor.y)) <= MoveSlack(hf, distance)
  {
    TruncRealBounds(p.x - cursor.x + jx);
    TruncRealBounds(p.y - cursor.y + jy);
  }

  /** The move StartMining sends stays within MoveSlack of 0.8096 of the way
      to the target in each coordinate. */
  lemma MiningMoveWithinSlack(cursor: Point, target: Point, dr: MiningDraws, hf: real, distance: real)
    requires IsLength(distance, Minus(target, cursor)) && DrawsInRange(dr.curve, hf)
    requires RealAbs(dr.jitterX) <= hf && RealAbs(dr.jitterY) <= hf
    ensures var move := MiningMove(cursor, target, dr, distance);
            RealAbs(move.0 as real - 0.8096 * (target.x - cursor.x)) <= MoveSlack(hf, distance)
            && RealAbs(move.1 as real - 0.8096 * (target.y - cursor.y)) <= MoveSlack(hf, distance)
  {
    CurvePointDeviation(cursor, target, dr.curve, hf, distance);
    var p := CurvePoint(cursor, target, dr.curve, distance);
    TruncatedWithinSlack(cursor, target, p, dr.jitterX, dr.jitterY, hf, distance);
  }

  // ----- Next target (MoveToNextBlock) -----

  /** The first block at or after `from` whose centre is more than 10
      pixels from `target`. */
  function FirstFarFrom(blocks: seq<Rect>, target: Point, sqrt: real -> real, from: nat): (r: Option<nat>)
    requires IsSqrt(sqrt)
    decreases |blocks| - from
    ensures r.Some? ==> from <= r.value < |blocks|
                        && Norm(Minus(Centre(blocks[r.value]), target), sqrt) > NEXT_BLOCK_DISTANCE
    ensures r.Some? ==> forall k :: from <= k < r.value ==>
                          Norm(Minus(Centre(blocks[k]), target), sqrt) <= NEXT_BLOCK_DISTANCE
    ensures r.None? ==> forall k :: from <= k < |blocks| ==>
                          Norm(Minus(Centre(blocks[k]), target), sqrt) <= NEXT_BLOCK_DISTANCE
  {
    if from >= |blocks| then None
    else if Norm(Minus(Centre(blocks[from]), target), sqrt) > NEXT_BLOCK_DISTANCE then Some(from)
    else FirstFarFrom(blocks, target, sqrt, from + 1)
  }

  /** The distance test needs no root: more than 10 pixels away means a
      squared distance above 100. */
  lemma FarIffSquared(blocks: seq<Rect>, target: Point, sqrt: real -> real, k: nat)
    requires IsSqrt(sqrt) && k < |blocks|
    ensures Norm(Minus(Centre(blocks[k]), target), sqrt) > NEXT_BLOCK_DISTANCE
        <==> NormSq(Minus(Centre(blocks[k]), target)) > 100.0
  {
    NormAboveIff(Minus(Centre(blocks[k]), target), sqrt, NEXT_BLOCK_DISTANCE);
  }

  /** The mining bot, with the capture throttle of OptimizedMinecraftBot
      (lastScreenshot, lastCaptureTime). */
  class MinecraftBot {
    const humanizer: HumanizationEngine
    const playerDetector: PlayerDetector
    const chatHandler: ChatHandler

    var currentState: GameState
    var currentMiningTarget: Point
    var isMining: bool
    var miningStartTime: int

    var miningMode: string
    var autoSwitchTools: bool
    var avoidBedrock: bool
    var pauseOnPlayer: bool
    var actionDelayMs: int

    var lastScreenshot: Frame
    var lastCaptureTime: int

    /** The mining fields together. */
    ghost function Mining(): (Point, bool, int)
      reads this
    {
      (currentMiningTarget, isMining, miningStartTime)
    }

    /** The settings the controller applies, together. */
    ghost function Settings(): (string, bool, bool, bool, int)
      reads this
    {
      (miningMode, autoSwitchTools, avoidBedrock, pauseOnPlayer, actionDelayMs)
    }

    /** The throttle fields together. */
    ghost function Capture(): (Frame, int)
      reads this
    {
      (lastScreenshot, lastCaptureTime)
    }

    /** The OptimizedMinecraftBot constructor at clock reading `now`. */
    constructor(h: HumanizationEngine, pd: PlayerDetector, ch: ChatHandler, now: int)
      ensures humanizer == h && playerDetector == pd && chatHandler == ch
      ensures currentState == InitialState && !isMining
      ensures Settings() == ("blocks", true, true, true, DEFAULT_ACTION_DELAY_MS)
      ensures lastScreenshot == EmptyFrame && lastCaptureTime == now
    {
      humanizer := h;
      playerDetector := pd;
      chatHandler := ch;
      currentState := InitialState;
      currentMiningTarget := Point(0.0, 0.0);
      isMining := false;
      miningStartTime := 0;
      miningMode := "blocks";
      autoSwitchTools := true;
      avoidBedrock := true;
      pauseOnPlayer := true;
      actionDelayMs := DEFAULT_ACTION_DELAY_MS;
      lastScreenshot := EmptyFrame;
      lastCaptureTime := now;
    }

    /** The state StartMining leaves when it starts on `target` at clock
        reading `now`: mining that target since `now`, and the humaniser
        with its action time set to `now`, its fatigue stepped by the whole
        minutes since its previous action and every other field kept. */
    twostate predicate StartedAt(target: Point, now: int)
      reads this, humanizer
    {
      && isMining && currentMiningTarget == target && miningStartTime == now
      && old(humanizer.Valid()) && humanizer.Valid()
      && humanizer.learnedPatterns == old(humanizer.learnedPatterns)
      && humanizer.baseReactionTime == old(humanizer.baseReactionTime)
      && humanizer.reactionVariance == old(humanizer.reactionVariance)
      && humanizer.mouseSensitivity == old(humanizer.mouseSensitivity)
      && humanizer.rotationSpeed == old(humanizer.rotationSpeed)
      && humanizer.humanizationLevel == old(humanizer.humanizationLevel)
      && humanizer.lastAction == now
      && humanizer.fatigue == NextFatigue(old(humanizer.fatigue), WholeMinutes(now - old(humanizer.lastAction)))
    }

    /** Neither the mining fields nor the humaniser changed. */
    twostate predicate MiningKept()
      reads this, humanizer
    {
      Mining() == old(Mining()) && unchanged(humanizer)
    }

    /** What StartMining sends for `target`: one cursor move towards the
        humanised waypoint with jitter, truncated to whole pixels; one click;
        a sleep of the mining delay scaled by the humaniser's (updated)
        fatigue and level plus the delay draw, then the action delay. */
    function StartOutput(target: Point, dr: MiningDraws, sqrt: real -> real): Output
      reads this, humanizer
      requires IsSqrt(sqrt) && humanizer.rotationSpeed != 0
    {
      Output([MiningMove(dr.cursor, target, dr, Norm(Minus(target, dr.cursor), sqrt))], 1, [],
             [ScaledDelay(BaseDelay("mining", humanizer.rotationSpeed, humanizer.baseReactionTime),
                          humanizer.fatigue, humanizer.humanizationLevel) + dr.delayDraw,
              actionDelayMs])
    }

    /** StartMining at clock reading `now`: the target is set and mining
        starts; the cursor is moved towards the humanised waypoint (with
        jitter, truncated to whole pixels), the bot sleeps the humanised
        mining delay and clicks, holding the button for the action delay. */
    method StartMining(blockPosition: Point, now: int, dr: MiningDraws, sqrt: real -> real)
      returns (out: Output)
      requires IsSqrt(sqrt)
      requires humanizer.Valid() && humanizer.rotationSpeed != 0 && DrawsFit(dr, humanizer)
      modifies this, humanizer
      ensures StartedAt(blockPosition, now) && out == StartOutput(blockPosition, dr, sqrt)
      ensures currentState == old(currentState) && Settings() == old(Settings()) && Capture() == old(Capture())
    {
      currentMiningTarget := blockPosition;
      isMining := true;
      miningStartTime := now;

      var move := MouseMoveTowards(blockPosition, dr, sqrt);
      var h := humanizer;
      var delay := h.GetHumanizedDelay("mining", now, dr.delayDraw);
      out := Output([move], 1, [], [delay, actionDelayMs]);
    }

    /** The cursor step of StartMining: from the cursor towards the
        humanised waypoint, with jitter, truncated to whole pixels by
        SendMouseMove. */
    method MouseMoveTowards(blockPosition: Point, dr: MiningDraws, sqrt: real -> real) returns (move: (int, int))
      requires IsSqrt(sqrt) && DrawsFit(dr, humanizer)
      ensures move == MiningMove(dr.cursor, blockPosition, dr, Norm(Minus(blockPosition, dr.cursor), sqrt))
    {
      var h := humanizer;
      var currentPos := dr.cursor;
      var humanizedTarget := h.GenerateHumanMouseMovement(currentPos, blockPosition, dr.curve,
                                                          Norm(Minus(blockPosition, currentPos), sqrt));
      var delta := h.AddNaturalJitter(Minus(humanizedTarget, currentPos), dr.jitterX, dr.jitterY);
      move := (TruncReal(delta.x), TruncReal(delta.y));
    }

    method StopMining()
      modifies this
      ensures !isMining
      ensures currentMiningTarget == old(currentMiningTarget) && miningStartTime == old(miningStartTime)
      ensures currentState == old(currentState) && Settings() == old(Settings()) && Capture() == old(Capture())
    {
      isMining := false;
    }

    /** IsBlockBroken at clock reading `now`, with `miningSpeed` the speed
        the stats component reports for the current tool and block: never
        while not mining; otherwise once the elapsed milliseconds reach
        1000 / miningSpeed. */
    function IsBlockBroken(now: int, miningSpeed: real): (broken: bool)
      reads this
      ensures broken ==> isMining
      ensures isMining && miningSpeed == 0.0 ==> !broken
    {
      if !isMining then false
      else MiningTimeReached(now - miningStartTime, miningSpeed)
    }

    /** With a positive speed, a block being mined is broken exactly when the
        elapsed milliseconds times the speed reach 1000, and it stays broken
        at every later clock reading. */
    lemma BlockBrokenIff(now: int, later: int, miningSpeed: real)
      requires isMining && miningSpeed > 0.0 && now <= later
      ensures IsBlockBroken(now, miningSpeed) <==> (now - miningStartTime) as real * miningSpeed >= 1000.0
      ensures IsBlockBroken(now, miningSpeed) ==> IsBlockBroken(later, miningSpeed)
    {
      MiningTimeReachedIff(now - miningStartTime, later - miningStartTime, miningSpeed);
    }

    /** MoveToNextBlock at clock reading `now`: mining starts at the centre of
        the first detected block more than 10 pixels from the current
        target; without one nothing changes. */
    method MoveToNextBlock(now: int, dr: MiningDraws, sqrt: real -> real) returns (out: Output)
      requires IsSqrt(sqrt)
      requires humanizer.Valid() && humanizer.rotationSpeed != 0 && DrawsFit(dr, humanizer)
      modifies this, humanizer
      ensures humanizer.Valid() && humanizer.rotationSpeed == old(humanizer.rotationSpeed)
      ensures currentState == old(currentState) && Settings() == old(Settings()) && Capture() == old(Capture())
      ensures match FirstFarFrom(currentState.detectedBlocks, old(currentMiningTarget), sqrt, 0)
        case None => MiningKept() && out == NoOutput
        case Some(k) => StartedAt(Centre(currentState.detectedBlocks[k]), now)
                        && out == StartOutput(Centre(currentState.detectedBlocks[k]), dr, sqrt)
    {
      var blocks := currentState.detectedBlocks;
      var i := 0;
      while i < |blocks| && Norm(Minus(Centre(blocks[i]), currentMiningTarget), sqrt) <= NEXT_BLOCK_DISTANCE
        invariant 0 <= i <= |blocks|
        invariant FirstFarFrom(blocks, currentMiningTarget, sqrt, i) == FirstFarFrom(blocks, currentMiningTarget, sqrt, 0)
      {
        i := i + 1;
      }
      if i < |blocks| {
        out := StartMining(Centre(blocks[i]), now, dr, sqrt);
      } else {
        out := NoOutput;
      }
    }

    /** ExecuteAction at clock reading `now`: MINE_BLOCK starts mining at the
        first detected block's centre (nothing without blocks); SWITCH_TOOL
        presses '1' when tool switching is enabled; IDLE sleeps 100 ms;
        LOOK_AROUND and MOVE_TO_POSITION do nothing. */
    method ExecuteAction(action: ActionType, now: int, dr: MiningDraws, sqrt: real -> real) returns (out: Output)
      requires IsSqrt(sqrt)
      requires humanizer.Valid() && humanizer.rotationSpeed != 0 && DrawsFit(dr, humanizer)
      modifies this, humanizer
      ensures humanizer.Valid()
      ensures currentState == old(currentState) && Settings() == old(Settings()) && Capture() == old(Capture())
      ensures action == MineBlock && currentState.detectedBlocks != [] ==>
        StartedAt(Centre(currentState.detectedBlocks[0]), now)
        && out == StartOutput(Centre(currentState.detectedBlocks[0]), dr, sqrt)
      ensures !(action == MineBlock && currentState.detectedBlocks != []) ==> MiningKept()
      ensures action == MineBlock && currentState.detectedBlocks == [] ==> out == NoOutput
      ensures action == SwitchTool ==>
        out == (if autoSwitchTools then Output([], 0, [KEY_SLOT_1], [KEY_PRESS_MS]) else NoOutput)
      ensures action == Idle ==> out == Output([], 0, [], [IDLE_SLEEP_MS])
      ensures action == LookAround || action == MoveToPosition ==> out == NoOutput
    {
      out := NoOutput;
      match action {
        case MineBlock =>
          if currentState.detectedBlocks != [] {
            var target := Centre(currentState.detectedBlocks[0]);
            out := StartMining(target, now, dr, sqrt);
          }
        case SwitchTool =>
          if autoSwitchTools {
            out := Output([], 0, [KEY_SLOT_1], [KEY_PRESS_MS]);
          }
        case LookAround =>
        case MoveToPosition =>
        case Idle =>
          out := Output([], 0, [], [IDLE_SLEEP_MS]);
      }
    }

    /** MinecraftBot::CaptureGameState at clock reading `now`, with
        `screenshot` the captured image, `candidates` the contour boxes in
        it, `miningSpeed` the current mining speed and `mean` the mean
        colour around the target. The state records the image, its blocks,
        the nearby players and whether to respond (a recent mention or a
        player within 5); while mining it records whether the block broke
        and, when blocks were found, the type of the block at the target. */
    method CaptureGameState(now: int, screenshot: Frame, candidates: seq<Rect>, miningSpeed: real,
                            mean: MeanColour)
      modifies this
      ensures currentState.screenshot == screenshot
      ensures currentState.detectedBlocks == if IsEmpty(screenshot) then [] else KeptBlocks(candidates)
      ensures currentState.nearbyPlayers == Within(playerDetector.detectedPlayers, playerDetector.detectionRadius)
      ensures currentState.shouldRespondToPlayer
              <==> RecentMentions(chatHandler.recentMessages, MENTION_WINDOW_S, now) != []
                   || AnyNearby(playerDetector.detectedPlayers, "", 5.0)
      ensures currentState.isBlockBroken
              == if isMining then IsBlockBroken(now, miningSpeed) else old(currentState.isBlockBroken)
      ensures currentState.currentBlockType
              == if isMining && currentState.detectedBlocks != [] then
                   IdentifyBlockType(Rect(TruncReal(currentMiningTarget.x - 20.0), TruncReal(currentMiningTarget.y - 20.0), 40, 40),
                                     screenshot, mean)
                 else old(currentState.currentBlockType)
      ensures currentState.currentTool == old(currentState.currentTool)
      ensures currentState.pendingChatResponse == old(currentState.pendingChatResponse)
      ensures Mining() == old(Mining()) && Settings() == old(Settings()) && Capture() == old(Capture())
    {
      var state := currentState.(screenshot := screenshot);
      var blocks := DetectBlocks(screenshot, candidates);
      state := state.(detectedBlocks := blocks);
      var detector, chat := playerDetector, chatHandler;
      var nearby := detector.GetNearbyPlayers(-1.0);
      state := state.(nearbyPlayers := nearby);
      var respond := chat.WasMentioned(now);
      if !respond {
        respond := detector.IsPlayerNearby("", 5.0);
      }
      state := state.(shouldRespondToPlayer := respond);
      if isMining {
        state := state.(isBlockBroken := IsBlockBroken(now, miningSpeed));
        if state.detectedBlocks != [] {
          var miningRegion := Rect(TruncReal(currentMiningTarget.x - 20.0), TruncReal(currentMiningTarget.y - 20.0), 40, 40);
          state := state.(currentBlockType := IdentifyBlockType(miningRegion, state.screenshot, mean));
        }
      }
      currentState := state;
    }

    /** OptimizedMinecraftBot::CaptureGameState at clock reading `now`, with
        `newScreenshot` what a capture would return. Within 100 ms of the
        last capture, with a screenshot cached, nothing happens; otherwise a
        non-empty capture becomes the cached and current screenshot and
        restarts the interval, and an empty one changes nothing. */
    method OptimizedCaptureGameState(now: int, newScreenshot: Frame)
      modifies this
      ensures now - old(lastCaptureTime) < CAPTURE_INTERVAL_MS && !IsEmpty(old(lastScreenshot)) ==>
        Capture() == old(Capture()) && currentState == old(currentState)
      ensures (now - old(lastCaptureTime) >= CAPTURE_INTERVAL_MS || IsEmpty(old(lastScreenshot)))
              && !IsEmpty(newScreenshot) ==>
        lastScreenshot == newScreenshot && lastCaptureTime == now
        && currentState == old(currentState).(screenshot := newScreenshot)
      ensures IsEmpty(newScreenshot) ==> Capture() == old(Capture()) && currentState == old(currentState)
      ensures Mining() == old(Mining()) && Settings() == old(Settings())
    {
      var timeSinceLastCapture := now - lastCaptureTime;
      if timeSinceLastCapture < CAPTURE_INTERVAL_MS && !IsEmpty(lastScreenshot) {
        return;
      }
      if !IsEmpty(newScreenshot) {
        lastScreenshot := newScreenshot;
        currentState := currentState.(screenshot := lastScreenshot);
        lastCaptureTime := now;
      }
    }

    method SetMiningMode(mode: string)
      modifies this
      ensures Settings() == (mode, old(autoSwitchTools), old(avoidBedrock), old(pauseOnPlayer), old(actionDelayMs))
      ensures currentState == old(currentState) && Mining() == old(Mining()) && Capture() == old(Capture())
    {
      miningMode := mode;
    }

    method SetAutoSwitchTools(enabled: bool)
      modifies this
      ensures Settings() == (old(miningMode), enabled, old(avoidBedrock), old(pauseOnPlayer), old(actionDelayMs))
      ensures currentState == old(currentState) && Mining() == old(Mining()) && Capture() == old(Capture())
    {
      autoSwitchTools := enabled;
    }

    method SetAvoidBedrock(enabled: bool)
      modifies this
      ensures Settings() == (old(miningMode), old(autoSwitchTools), enabled, old(pauseOnPlayer), old(actionDelayMs))
      ensures currentState == old(currentState) && Mining() == old(Mining()) && Capture() == old(Capture())
    {
      avoidBedrock := enabled;
    }

    method SetPauseOnPlayer(enabled: bool)
      modifies this
      ensures Settings() == (old(miningMode), old(autoSwitchTools), old(avoidBedrock), enabled, old(actionDelayMs))
      ensures currentState == old(currentState) && Mining() == old(Mining()) && Capture() == old(Capture())
    {
      pauseOnPlayer := enabled;
    }

    method SetActionDelay(delayMs: int)
      modifies this
      ensures Settings() == (old(miningMode), old(autoSwitchTools), old(avoidBedrock), old(pauseOnPlayer), delayMs)
      ensures currentState == old(currentState) && Mining() == old(Mining()) && Capture() == old(Capture())
    {
      actionDelayMs := delayMs;
    }
  }
}
