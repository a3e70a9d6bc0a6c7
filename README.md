# MinecraftAI core, modelled in Dafny

MinecraftAI is a Windows bot for Hypixel Skyblock. It watches the game window
through screen captures, mines the blocks it sees and moves the mouse and
keyboard with human-like timing. It stops when a player comes near and
answers chat messages that mention it. A supervisory `MinecraftAI` object
owns the components, validates and applies the configuration the web GUI
edits, and runs a main loop that stops itself after five consecutive failed
passes.

This project models that core and proves properties of it:

- `support.dfy`: shared vocabulary. It holds an `Option` type, C++ integer
  division and float-to-int truncation (both toward zero), points,
  rectangles and frames, and the string operations the chat code uses.
- `performance.dfy`: the frame-time ring buffer (`PerformanceMonitor`, a
  class over an `array` of 60 slots) and the time-limited image cache
  (`ImageProcessingCache`, two maps).
- `humanization.dfy`: the naturalness score of a movement pattern, the
  corpus of the 100 best patterns, the fatigue multiplier, the humanised
  delay and the Bezier waypoint (`HumanizationEngine`).
- `chat.dfy`: the chat log, mention detection, message parsing, reply
  generation and the keys typed to send chat (`ChatHandler`).
- `players.dfy`: per-frame player tracking, radius queries and the
  known-player list (`PlayerDetector`).
- `bot.dfy`: block detection and classification, the mining state, the
  mouse move towards a block, action dispatch and the capture throttle of
  `OptimizedMinecraftBot` (`MinecraftBot`).
- `learner.dfy`: cutting a recorded video's cursor movements into patterns
  (`VideoLearner`).
- `pool.dfy`: the FIFO object pool (`ObjectPool<T>`).
- `controller.dfy`: configuration validation, the main loop's error
  breaker, the actions of one pass, statistics and the known-player
  commands (`MinecraftAI`).

Things outside the program's logic become parameters:

- Clock readings are `int` milliseconds. The frame monitor uses `real`
  milliseconds, because its frame times are doubles.
- Every random draw is a parameter constrained to its distribution's range.
- `cv::norm` uses a square-root parameter `sqrt` that must return the exact
  root (`IsSqrt`).
- Screen contents (contours, mean colours, text recognition, regex captures)
  are parameters.
- What the bot sends to the game (mouse moves, clicks, key presses, sleeps)
  is returned as an `Output` value.

Floating-point values are `real`. The fatigue multiplier is kept in integer
hundredths (100 to 150), which is exact for its steps of +0.1 and -0.05.

## Model

| member | source | states |
|---|---|---|
| Geometry.Centre | MinecraftAI/src/MinecraftAI.cpp:279-280 | x + width/2 and y + height/2 with integer division: with a non-negative size, at most half a pixel short of the exact centre and never past it |
| Performance.Fps | MinecraftAI/src/PeformanceOptimizations.cpp:27-30 | a positive average frame time gives a positive rate with rate * average = 1000; otherwise the rate is 0 |
| Performance.FilledCount | MinecraftAI/src/PeformanceOptimizations.cpp:20 | the number of slots averaged is min(frames, 60): never more than either |
| Performance.SlotSourceStep | MinecraftAI/src/PeformanceOptimizations.cpp:13-14 | writing slot frameIndex % 60 makes that slot hold the newest frame and leaves every other slot's frame as it was |
| Performance.SumConstant | MinecraftAI/src/PeformanceOptimizations.cpp:18-25 | n equal frame times c sum to n * c, so they average to c |
| Performance.SumNonNegative | MinecraftAI/src/PeformanceOptimizations.cpp:18-25 | non-negative frame times have a non-negative sum and mean |
| Performance.PerformanceMonitor.constructor | MinecraftAI/src/PeformanceOptimizations.cpp:4-7 | sixty zeroed slots, no frame recorded, the clock reading stored |
| Performance.PerformanceMonitor.FrameStart | MinecraftAI/src/PeformanceOptimizations.cpp:9-16 | the elapsed time goes into slot frameIndex % 60, only that slot changes, the index advances; the invariant that the filled slots hold the latest min(n, 60) frame times is kept |
| Performance.PerformanceMonitor.FilledSumIsRecentSum | MinecraftAI/src/PeformanceOptimizations.cpp:18-25 | the slots averaged are a rotation of the most recent min(n, 60) frame times, so they have the same sum |
| Performance.PerformanceMonitor.GetAverageFrameTime | MinecraftAI/src/PeformanceOptimizations.cpp:18-25 | the result is the mean of the most recent min(n, 60) frame times, non-negative, and 0 before any frame |
| Performance.PerformanceMonitor.GetFPS | MinecraftAI/src/PeformanceOptimizations.cpp:27-30 | the rate is non-negative and 1000 divided by the mean of the recent frame times when that mean is positive |
| Performance.FourFramesOfTenMs | MinecraftAI/src/PeformanceOptimizations.cpp:9-30 | four frames 10 ms apart average 10 ms, that is 100 frames per second |
| Performance.ComputeHash | MinecraftAI/src/PeformanceOptimizations.cpp:96-97 | an empty image hashes to 0 |
| Performance.SmallImagesShareKey | MinecraftAI/src/PeformanceOptimizations.cpp:99-104 | images no larger than 10 in some dimension are not sampled: same size and type, same key, whatever the pixels |
| Performance.SampleChangesKey | MinecraftAI/src/PeformanceOptimizations.cpp:99-114 | in a sampled image, changing the first sampled pixel's channel sum (within 0..765, the rest kept) changes the key, and only then |
| Performance.NeighbouringSamplesCollide | MinecraftAI/src/PeformanceOptimizations.cpp:110-112 | in any sampled image, channel sums (2, 0, 0) and (0, 1, 0) collide: the shifts by 3 and 4 overlap under XOR |
| Performance.XorInjective | MinecraftAI/src/PeformanceOptimizations.cpp:99-112 | XOR with a fixed operand is injective, so a key keeps every change of a single XORed term |
| Performance.ImageProcessingCache.constructor | MinecraftAI/src/MinecraftAI.h:119-133 | both maps start empty, over the same (empty) key set |
| Performance.ImageProcessingCache.GetOrProcess | MinecraftAI/src/PeformanceOptimizations.cpp:69-95 | the processor runs exactly when the key is missing or at least 1000 ms old; a hit returns the stored value and changes nothing; the age is taken at the first clock reading; a miss stores the new result stamped with the second reading (after the processor) and evicts the entries expired at the third reading from both maps, keeping their key sets equal; the new entry survives iff the processor took at most the timeout |
| Performance.ImageProcessingCache.CleanOldEntries | MinecraftAI/src/PeformanceOptimizations.cpp:119-133 | exactly the entries older than the timeout leave both maps; an entry aged exactly 1000 ms stays |
| Performance.CacheTimeoutBoundary | MinecraftAI/src/PeformanceOptimizations.cpp:69-133 | the two comparisons disagree at the boundary: an entry is served at 999 ms, recomputed at 1000 ms, yet not evicted at 1000 ms |
| Humanization.Smoothness | MinecraftAI/src/HumanizationEngine.cpp:93-100 | the summed acceleration is non-negative and 0 for fewer than three points |
| Humanization.TimingStdDev | MinecraftAI/src/HumanizationEngine.cpp:102-114 | the timing deviation is non-negative |
| Humanization.Naturalness | MinecraftAI/src/HumanizationEngine.cpp:87-121 | fewer than two movements score 0; otherwise the score lies in (0, 1] |
| Humanization.CalculateNaturalness | MinecraftAI/src/HumanizationEngine.cpp:87-121 | the loops compute the score Naturalness defines |
| Humanization.SumAccelerations | MinecraftAI/src/HumanizationEngine.cpp:93-100 | the acceleration loop computes Smoothness |
| Humanization.TimingDeviation | MinecraftAI/src/HumanizationEngine.cpp:102-114 | the timing loops compute the population standard deviation TimingStdDev |
| Humanization.SumTimings | MinecraftAI/src/HumanizationEngine.cpp:105-108 | the first timing loop computes the sum of the timings |
| Humanization.SumSquaredDeviations | MinecraftAI/src/HumanizationEngine.cpp:110-112 | the second timing loop computes the sum of squared deviations from the mean |
| Humanization.SmootherScoresHigher | MinecraftAI/src/HumanizationEngine.cpp:117-120 | with the same timings, a trail with no more total acceleration never scores lower |
| Humanization.ConstantVelocityIsSmooth | MinecraftAI/src/HumanizationEngine.cpp:93-100 | a trail moving at constant velocity has zero total acceleration |
| Humanization.ConstantTimingsSum | MinecraftAI/src/HumanizationEngine.cpp:102-114 | n equal timings c sum to n * c and have no deviation from c |
| Humanization.SteadyTrailScoresThreshold | MinecraftAI/src/HumanizationEngine.cpp:8 | a constant-velocity trail with constant timings scores exactly 0.7, which the corpus (strictly above 0.7) rejects |
| Humanization.Insert | MinecraftAI/src/HumanizationEngine.cpp:13-16 | inserting a pattern keeps every pattern once more (a permutation of the old corpus plus the new pattern) |
| Humanization.InsertSorted | MinecraftAI/src/HumanizationEngine.cpp:13-16 | inserting into a corpus sorted by descending score keeps it sorted |
| Humanization.SortByScore | MinecraftAI/src/HumanizationEngine.cpp:13-16 | the result is sorted by descending score and a permutation of the input |
| Humanization.MultisetGood | MinecraftAI/src/HumanizationEngine.cpp:7-9 | a sub-multiset of patterns above 0.7 holds only patterns above 0.7 |
| Humanization.DropLast | MinecraftAI/src/HumanizationEngine.cpp:17 | cutting the last pattern off a sorted corpus keeps it sorted and drops a pattern scoring no higher than any kept one |
| Humanization.TopDropsLowest | MinecraftAI/src/HumanizationEngine.cpp:12-18 | sorting 101 good patterns and keeping 100 keeps them sorted and good, and drops one pattern scoring no higher than any kept one |
| Humanization.NextFatigue | MinecraftAI/src/HumanizationEngine.cpp:66-73 | the multiplier stays in [1.0, 1.5]; after more than 30 idle minutes it rises by 0.1 or saturates at 1.5, otherwise it falls by 0.05 or floors at 1.0 |
| Humanization.WholeMinutes | MinecraftAI/src/HumanizationEngine.cpp:67 | duration_cast to minutes truncates toward zero: m * 60000 <= ms < (m + 1) * 60000 for non-negative intervals, mirrored for negative ones |
| Humanization.FatigueAfter | MinecraftAI/src/HumanizationEngine.cpp:66-75 | any run of delay requests keeps the multiplier in [1.0, 1.5] |
| Humanization.LongBreaksRaise | MinecraftAI/src/HumanizationEngine.cpp:69-70 | k long breaks raise the multiplier by 0.1 each, capped at 1.5 |
| Humanization.LongBreaksSaturate | MinecraftAI/src/HumanizationEngine.cpp:69-70 | five or more long breaks in a row reach the 1.5 ceiling from any multiplier |
| Humanization.ShortGapsRecover | MinecraftAI/src/HumanizationEngine.cpp:71-73 | k short gaps lower the multiplier by 0.05 each, floored at 1.0; ten bring any multiplier back to 1.0 |
| Humanization.BaseDelay | MinecraftAI/src/HumanizationEngine.cpp:52-63 | movement 50, tool_switch 300, player_interaction 500, any other type the base reaction time; mining is 10000 / rotationSpeed truncated |
| Humanization.ScaledDelayBounds | MinecraftAI/src/HumanizationEngine.cpp:77 | with the multiplier in range and the level in [0, 100], the delay before the random variance lies between the base and 2.25 times the base |
| Humanization.WaypointClosedForm | MinecraftAI/src/HumanizationEngine.cpp:22-47 | the Bezier point at t = 0.8 with the two control points equals the closed form: 0.8096 of the way to the target plus the curve offsets |
| Humanization.CurvePointAtTarget | MinecraftAI/src/HumanizationEngine.cpp:22-47 | a movement whose start is its target goes nowhere |
| Humanization.WaypointWithoutCurve | MinecraftAI/src/HumanizationEngine.cpp:22-47 | with zero curve draws the waypoint is the straight-line point 0.8096 of the way |
| Humanization.WaypointFacts | MinecraftAI/src/HumanizationEngine.cpp:22-47 | the waypoint lies within 0.02304 * humanFactor * distance of the straight-line point in each coordinate, and equals the start when start and target coincide |
| Humanization.CurvePointDeviation | MinecraftAI/src/HumanizationEngine.cpp:31-36 | draws within +-0.3 * humanFactor move each coordinate at most 0.02304 * humanFactor * distance off the straight line |
| Humanization.OffsetBound | MinecraftAI/src/HumanizationEngine.cpp:33-36 | one coordinate's curve offset is bounded by 0.02304 * humanFactor * distance |
| Humanization.HumanizationEngine.constructor | MinecraftAI/src/HumanizationEngine.cpp:3-5 | an empty corpus, the default reaction time 150 +- 50, fatigue 1.0 and the clock reading as the last action |
| Humanization.HumanizationEngine.LearnFromPattern | MinecraftAI/src/HumanizationEngine.cpp:7-20 | a pattern scoring at most 0.7 is ignored; otherwise it is appended; on the 101st, the corpus becomes 100 sorted patterns that, with one dropped pattern scoring no higher than any kept one, form the old corpus plus the new pattern; the corpus stays at most 100 patterns, all above 0.7 |
| Humanization.HumanizationEngine.GetHumanizedDelay | MinecraftAI/src/HumanizationEngine.cpp:49-78 | fatigue takes one step for the whole minutes since the last action, the last action becomes now, and the delay is the scaled base delay plus the variance draw |
| Humanization.HumanizationEngine.GenerateHumanMouseMovement | MinecraftAI/src/HumanizationEngine.cpp:22-47 | the waypoint is the closed-form curve point, and the start itself when start and target coincide |
| Humanization.HumanizationEngine.AddNaturalJitter | MinecraftAI/src/HumanizationEngine.cpp:80-85 | each coordinate moves by its draw, at most humanFactor |
| Humanization.HumanizationEngine.SetMouseSensitivity | MinecraftAI/src/MinecraftAI.h:260 | only the sensitivity changes |
| Humanization.HumanizationEngine.SetRotationSpeed | MinecraftAI/src/MinecraftAI.h:261 | only the rotation speed changes |
| Humanization.HumanizationEngine.SetHumanizationLevel | MinecraftAI/src/MinecraftAI.h:262 | only the humanization level changes |
| Humanization.HumanizationEngine.SetReactionTime | MinecraftAI/src/MinecraftAI.h:263 | only the base reaction time changes |
| Chat.RecentMentions | MinecraftAI/src/ChatHandler.cpp:191-204 | the filter never returns more messages than the log holds |
| Chat.RecentMentionsMembers | MinecraftAI/src/ChatHandler.cpp:191-204 | a message is returned exactly when it is logged, mentions the bot and is at most the window's whole seconds old |
| Chat.WiderWindowKeepsMentions | MinecraftAI/src/ChatHandler.cpp:191-204 | widening the window never yields fewer mentions |
| Chat.FirstAcceptedNoneIff | MinecraftAI/src/ChatHandler.cpp:119-146 | nothing is logged exactly when no pattern's capture survives cleaning and acceptance |
| Chat.FirstAcceptedIsFirst | MinecraftAI/src/ChatHandler.cpp:119-146 | the logged capture is the earliest pattern's accepted one; later patterns are not consulted |
| Chat.AcceptedIsClean | MinecraftAI/src/ChatHandler.cpp:124-128 | a logged name is non-empty word characters and not the bot's name; a logged message is non-empty with no surrounding white space |
| Chat.RecordOnFullLog | MinecraftAI/src/ChatHandler.cpp:136-141 | on a full log of 100 the new message goes last, the oldest goes out and the size stays 100 |
| Chat.KeyCode | MinecraftAI/src/ChatHandler.cpp:256-264 | exactly spaces and ASCII letters have a key; it is the space bar or an upper-case letter key |
| Chat.KeysFor | MinecraftAI/src/ChatHandler.cpp:254-275 | a text never yields more keys than characters |
| Chat.KeysForAppend | MinecraftAI/src/ChatHandler.cpp:254-275 | the keys of a concatenation are the concatenated keys |
| Chat.KeysAreLettersOrSpace | MinecraftAI/src/ChatHandler.cpp:254-275 | every typed key is the space bar or a letter key, so never Enter |
| Chat.KeysIgnoreCase | MinecraftAI/src/ChatHandler.cpp:254-275 | lower-casing a text does not change its keys |
| Chat.WhisperPrefixKeys | MinecraftAI/src/ChatHandler.cpp:288-293 | the "/msg " prefix types as M, S, G and space: the slash has no key |
| Chat.WhisperCommandKeys | MinecraftAI/src/ChatHandler.cpp:288-293 | the whisper command types as the keys of the prefix, the name, a space and the message |
| Chat.ChatHandler.constructor | MinecraftAI/src/ChatHandler.cpp:3-18 | the bot's name, an empty log, the chat area (2, 2, 400, 200), the default templates and responses on |
| Chat.ChatHandler.CheckIfMentioned | MinecraftAI/src/ChatHandler.cpp:149-174 | true exactly when the lower-cased message contains the lower-cased bot name or one of the addressing words |
| Chat.ChatHandler.ParseChatMessage | MinecraftAI/src/ChatHandler.cpp:102-147 | an empty text changes nothing; otherwise the earliest accepted capture is logged with the time and its mention flag, the oldest dropped beyond 100; at most one message is added and the log stays at most 100 |
| Chat.ChatHandler.WasMentioned | MinecraftAI/src/ChatHandler.cpp:176-189 | true exactly when some logged message mentioning the bot is at most 30 whole seconds old |
| Chat.ChatHandler.GetRecentMentions | MinecraftAI/src/ChatHandler.cpp:191-204 | exactly the logged mentions within the window, in log order |
| Chat.ChatHandler.ContextSuffix | MinecraftAI/src/ChatHandler.cpp:220-232 | the context sentence by priority: mining, then bot or ai, then help, else none |
| Chat.ChatHandler.GenerateResponse | MinecraftAI/src/ChatHandler.cpp:206-235 | "Hello!" without templates; otherwise the chosen template with its first {player} replaced by the sender, then the context sentence |
| Chat.ChatHandler.SendChatMessage | MinecraftAI/src/ChatHandler.cpp:237-286 | nothing for an empty message; otherwise T, the keys of the text, then Enter |
| Chat.ChatHandler.SendWhisper | MinecraftAI/src/ChatHandler.cpp:288-293 | nothing when the name or the message is empty; otherwise T, M, S, G, space, the name's keys, space, the message's keys, Enter |
| Chat.ChatHandler.ProcessChatRegion | MinecraftAI/src/ChatHandler.cpp:20-36 | an empty frame or disabled responses change nothing; an area past the frame is shrunk first; an area still outside fails the crop with the log unchanged; otherwise the recognised text is parsed |
| Chat.ChatHandler.SetBotName | MinecraftAI/src/MinecraftAI.h:332 | only the bot's name changes |
| Chat.ChatHandler.EnableResponses | MinecraftAI/src/MinecraftAI.h:333 | only the responses flag changes |
| Chat.FitChatRegion | MinecraftAI/src/ChatHandler.cpp:25-28 | an area that fits the frame is kept as it is |
| Chat.FittedRegionInside | MinecraftAI/src/ChatHandler.cpp:25-28 | on a frame of at least 4 x 4 the shrunk area lies inside the frame |
| Chat.GreetingExample | MinecraftAI/src/ChatHandler.cpp:9-14 | the first template addressed to Steve reads "Hello Steve!" |
| Chat.PlainGreetingHasNoSuffix | MinecraftAI/src/ChatHandler.cpp:220-232 | a plain "hi" gets no context sentence |
| Text.FindIffContains | MinecraftAI/src/ChatHandler.cpp:149-174 | find succeeds exactly when the text contains the pattern |
| Text.ReplaceFirstSplits | MinecraftAI/src/ChatHandler.cpp:214-217 | replacing the first occurrence at i is prefix, replacement, suffix |
| Text.RemoveNonWord | MinecraftAI/src/ChatHandler.cpp:125 | the cleaned name has only word characters and leaves a word-only name as it is |
| Text.TrimEmptyIff | MinecraftAI/src/ChatHandler.cpp:126 | trimming leaves nothing exactly when the text is all white space |
| Players.ExtractPlayerName | MinecraftAI/src/PlayerDetector.cpp:96-116 | "Unknown" when the nameplate area (20 pixels wider each side, 40 higher, 30 tall) reaches a frame edge; otherwise the first known name, or "Player" when none is known |
| Players.FirstSameFrom | MinecraftAI/src/PlayerDetector.cpp:38-45 | the first earlier entry with the same name or closer than 50 pixels, and none before it; None when there is none |
| Players.ValidRects | MinecraftAI/src/PlayerDetector.cpp:24-25 | validation never keeps more rectangles than found |
| Players.ValidRectsMembers | MinecraftAI/src/PlayerDetector.cpp:24-25 | a rectangle is kept exactly when some position holds it and passes validation there |
| Players.ValidRectsAppend | MinecraftAI/src/PlayerDetector.cpp:24-25 | validation keeps order: the survivors of a + b are those of a followed by those of b |
| Players.IsValidPlayerDetection | MinecraftAI/src/PlayerDetector.cpp:184-196 | a valid detection is textured and, with a non-negative size, lies in a non-empty frame with its centre inside the frame |
| Players.TrackKeeps | MinecraftAI/src/PlayerDetector.cpp:37-47 | tracking appends the new player, differing from its fresh record in the moving flag at most, and changes no earlier entry except possibly its last position |
| Players.DetectionsFollowValidRects | MinecraftAI/src/PlayerDetector.cpp:16-49 | one player per valid rectangle, in order, at its centre, named from its nameplate, measured from the frame centre and stamped with the update time |
| Players.FirstDetectionNotMoving | MinecraftAI/src/PlayerDetector.cpp:19-47 | the first player of a frame is never moving, since the list was cleared |
| Players.WithinMembers | MinecraftAI/src/PlayerDetector.cpp:118-129 | a player is near exactly when detected and at most the radius away |
| Players.FirstIndex | MinecraftAI/src/PlayerDetector.cpp:146-147 | std::find: the first index holding the name, None exactly when absent |
| Players.NonEmptyLines | MinecraftAI/src/PlayerDetector.cpp:9-13 | only non-empty lines of the file are kept |
| Players.PlayerDetector.constructor | MinecraftAI/src/PlayerDetector.cpp:3-14 | the known names are the non-empty file lines in order; no players, default radii 16 and 8 |
| Players.PlayerDetector.UpdateDetection | MinecraftAI/src/PlayerDetector.cpp:16-49 | an empty frame changes nothing; otherwise the list is rebuilt from the valid rectangles with movement tracking |
| Players.PlayerDetector.GetNearbyPlayers | MinecraftAI/src/PlayerDetector.cpp:118-129 | the detected players within the radius (the detection radius when negative), in order |
| Players.PlayerDetector.IsPlayerNearby | MinecraftAI/src/PlayerDetector.cpp:131-143 | true exactly when some player within the radius (the response radius when negative) has the name, or any player when the name is empty |
| Players.PlayerDetector.AddKnownPlayer | MinecraftAI/src/PlayerDetector.cpp:145-155 | an absent name is appended, a present one changes nothing; no duplicates are introduced |
| Players.PlayerDetector.RemoveKnownPlayer | MinecraftAI/src/PlayerDetector.cpp:157-169 | the first occurrence is erased when present |
| Players.PlayerDetector.FindPlayerByName | MinecraftAI/src/PlayerDetector.cpp:171-178 | the first detected player with the name; None (null) exactly when none has it |
| Players.PlayerDetector.SetDetectionRadius | MinecraftAI/src/MinecraftAI.h:296 | only the detection radius changes |
| Players.PlayerDetector.GetPlayerCount | MinecraftAI/src/MinecraftAI.h:297 | the number of detected players |
| Players.RemoveFirst | MinecraftAI/src/PlayerDetector.cpp:157-161 | an absent name leaves the list; a present one shortens it by one; nothing new appears |
| Players.RemoveFirstNoDuplicates | MinecraftAI/src/PlayerDetector.cpp:157-161 | in a list without duplicates removal takes the name out entirely and keeps it duplicate-free |
| Players.AddThenRemove | MinecraftAI/src/PlayerDetector.cpp:145-169 | adding a new name and removing it restores the list |
| Bot.QuotientCompare | MinecraftAI/src/MinecraftBot.cpp:134-136 | comparing a quotient with a bound is comparing the numerator with the scaled bound |
| Bot.BlockLikeIntegerForm | MinecraftAI/src/MinecraftBot.cpp:131-139 | the block filter in integers: both sides in (20, 100) and 4w < 5h < 6w |
| Bot.KeptBlocks | MinecraftAI/src/MinecraftBot.cpp:127-140 | filtering never keeps more boxes than found |
| Bot.KeptBlocksMembers | MinecraftAI/src/MinecraftBot.cpp:127-140 | a box is kept exactly when it was found and is block-like |
| Bot.KeptBlocksIdempotent | MinecraftAI/src/MinecraftBot.cpp:127-140 | filtering twice keeps the same blocks |
| Bot.DetectBlocks | MinecraftAI/src/MinecraftBot.cpp:114-143 | no blocks for an empty image; otherwise the block-like boxes in contour order |
| Bot.IdentifyBlockType | MinecraftAI/src/MinecraftBot.cpp:145-169 | "unknown" outside the image; each block name exactly when its colour rule holds, since no colour satisfies two rules |
| Bot.MiningTimeReachedIff | MinecraftAI/src/MinecraftBot.cpp:61-75 | with a positive speed the block breaks once elapsed * speed reaches 1000, and stays broken |
| Bot.MiningMoveWithinSlack | MinecraftAI/src/MinecraftBot.cpp:44-49 | the mouse move lands within the curve deviation, one jitter step and one pixel of 0.8096 of the way to the block |
| Bot.FirstFarFrom | MinecraftAI/src/MinecraftBot.cpp:78-85 | the first block whose centre is more than 10 pixels from the target, with none before it; None when there is none |
| Bot.FarIffSquared | MinecraftAI/src/MinecraftBot.cpp:81 | more than 10 pixels away exactly when the squared distance exceeds 100 |
| Bot.MinecraftBot.constructor | MinecraftAI/src/PeformanceOptimizations.cpp:136-141 | the shared components, an empty state, not mining, the default settings and the capture clock set to now |
| Bot.MinecraftBot.StartMining | MinecraftAI/src/MinecraftBot.cpp:38-55 | StartedAt: mining the block since now, the humanizer's last action now and its fatigue stepped by the idle minutes, every other humanizer field kept; the output is StartOutput: one mouse move towards the humanised waypoint, one click, the scaled mining delay plus the draw then the click hold as sleeps |
| Bot.MinecraftBot.MouseMoveTowards | MinecraftAI/src/MinecraftBot.cpp:44-49 | the move is the humanised waypoint relative to the cursor, jittered and truncated to whole pixels |
| Bot.MinecraftBot.StopMining | MinecraftAI/src/MinecraftBot.cpp:57-59 | mining stops; target and start time are kept |
| Bot.MinecraftBot.IsBlockBroken | MinecraftAI/src/MinecraftBot.cpp:61-70 | never broken while not mining, nor at zero speed |
| Bot.MinecraftBot.BlockBrokenIff | MinecraftAI/src/MinecraftBot.cpp:61-75 | a mined block is broken exactly when elapsed ms * speed >= 1000, and then stays broken |
| Bot.MinecraftBot.MoveToNextBlock | MinecraftAI/src/MinecraftBot.cpp:77-86 | with a block more than 10 pixels from the old target, exactly StartMining's state and output (StartedAt, StartOutput) at the first such block's centre; without one neither the mining fields nor the humanizer change and nothing is sent |
| Bot.MinecraftBot.ExecuteAction | MinecraftAI/src/MinecraftBot.cpp:209-233 | mine with blocks gives StartMining's state and output at the first block's centre, otherwise the mining fields and the humanizer are kept; switch presses '1' when enabled; idle sleeps 100 ms; look and move do nothing |
| Bot.MinecraftBot.CaptureGameState | MinecraftAI/src/MinecraftBot.cpp:21-36 | the state records the image, its blocks, the nearby players and whether to respond; while mining, broken and the target block's type |
| Bot.MinecraftBot.OptimizedCaptureGameState | MinecraftAI/src/PeformanceOptimizations.cpp:143-167 | within 100 ms of a cached capture nothing changes; otherwise a non-empty capture is cached, becomes the screenshot and restarts the interval |
| Bot.MinecraftBot.SetMiningMode | MinecraftAI/src/MinecraftAI.h:399 | only the mining mode changes |
| Bot.MinecraftBot.SetAutoSwitchTools | MinecraftAI/src/MinecraftAI.h:400 | only the tool-switch flag changes |
| Bot.MinecraftBot.SetAvoidBedrock | MinecraftAI/src/MinecraftAI.h:401 | only the bedrock flag changes |
| Bot.MinecraftBot.SetPauseOnPlayer | MinecraftAI/src/MinecraftAI.h:402 | only the player-pause flag changes |
| Bot.MinecraftBot.SetActionDelay | MinecraftAI/src/MinecraftAI.h:403 | only the action delay changes |
| Learner.KeepWellFormed | MinecraftAI/src/VideoLearner.cpp:72-82 | closing a trail of at most 51 significant movements adds only well-formed patterns |
| Learner.StepConsistent | MinecraftAI/src/VideoLearner.cpp:52-98 | one frame keeps the open trail at most 50 significant movements with one timing each, and the patterns well formed |
| Learner.RunConsistent | MinecraftAI/src/VideoLearner.cpp:52-98 | the loop invariant holds after any number of frames |
| Learner.ExtractedWellFormed | MinecraftAI/src/VideoLearner.cpp:26-114 | every extracted pattern has 3 to 51 movements, each longer than 1, one timing per movement, and a score in (0.3, 1] |
| Learner.StillVideoExtractsNothing | MinecraftAI/src/VideoLearner.cpp:63-110 | frames without a displacement longer than 1 extract nothing |
| Learner.MiningCutNeedsSix | MinecraftAI/src/VideoLearner.cpp:72 | a trail closed by a mining frame before reaching the length cap has more than five movements |
| Learner.VideoLearner.constructor | MinecraftAI/src/MinecraftAI.h:448-466 | no video open and no patterns |
| Learner.VideoLearner.LoadVideo | MinecraftAI/src/VideoLearner.cpp:3-24 | the result and the open flag say whether the file opened; the extracted patterns are kept |
| Learner.VideoLearner.ExtractMovementPatterns | MinecraftAI/src/VideoLearner.cpp:26-114 | without a video nothing changes; an unreadable first frame leaves no patterns; otherwise the patterns are those the segmentation extracts |
| Pools.Apply | MinecraftAI/src/MinecraftAI.h:507-525 | an acquire always hands out an object; a release never does |
| Pools.AcquiresDrain | MinecraftAI/src/MinecraftAI.h:507-517 | acquiring as many objects as pooled hands them out oldest first and empties the pool |
| Pools.ReleasesAppend | MinecraftAI/src/MinecraftAI.h:519-525 | releases append in order and hand nothing out |
| Pools.FirstInFirstOut | MinecraftAI/src/MinecraftAI.h:507-525 | after releasing xs into a pool, the next acquires hand out the pooled objects then xs, in order, and empty the pool |
| Pools.ObjectPool.constructor | MinecraftAI/src/MinecraftAI.h:499-505 | the factory's initial objects are pooled in order |
| Pools.ObjectPool.Acquire | MinecraftAI/src/MinecraftAI.h:507-517 | the oldest pooled object, or a fresh factory object from an empty pool |
| Pools.ObjectPool.Release | MinecraftAI/src/MinecraftAI.h:519-525 | a non-null object joins the back; a null one is dropped |
| Pools.ObjectPool.Size | MinecraftAI/src/MinecraftAI.h:527-531 | the pool size is zero exactly when the pool is empty, so the next acquire creates an object |
| Controller.MatchesWord | MinecraftAI/src/MinecraftAI.cpp:338 | ^[a-zA-Z0-9_]+$ matches exactly the non-empty strings of word characters |
| Controller.KnownPlayersPass | MinecraftAI/src/MinecraftAI.cpp:349-356 | the loop passes exactly when every known name follows the name rule |
| Controller.ValidateConfig | MinecraftAI/src/MinecraftAI.cpp:310-364 | a configuration passes exactly when its numbers are in range, both kinds of name follow the name rule and the mode is known |
| Controller.DefaultConfigValid | MinecraftAI/src/MinecraftAI.h:39-59 | the default configuration passes validation |
| Controller.StreakCountsFailuresSinceCompleted | MinecraftAI/src/MinecraftAI.cpp:139-215 | the consecutive-error count is the number of failed passes since the last completed one (plus the entry count if none completed), counted independently by Failures: completion resets it, pauses leave it |
| Controller.TickSleep | MinecraftAI/src/MinecraftAI.cpp:174-214 | a failure sleeps 500 or 1000 ms; any other pass the action delay or twice it, the delay itself above 30 fps; with a delay in [10, 5000] every sleep lies in [10, 10000] |
| Controller.RunTicks | MinecraftAI/src/MinecraftAI.cpp:131-220 | never more sleeps than passes |
| Controller.StopsIffStreakReachesLimit | MinecraftAI/src/MinecraftAI.cpp:131-220 | the breaker fires exactly when some prefix of the passes brings the consecutive-error count to 5 |
| Controller.ConsecutiveFailuresStop | MinecraftAI/src/MinecraftAI.cpp:179-215 | five failures in a row stop the loop, each earlier failure backing off 500 or 1000 ms |
| Controller.NoFailuresNoStop | MinecraftAI/src/MinecraftAI.cpp:139-177 | without failures the loop never stops itself and each pass sleeps the action delay, doubled at 30 fps or less |
| Controller.SleepsBounded | MinecraftAI/src/MinecraftAI.cpp:174-214 | with a validated action delay every sleep lies in [10 ms, 10 s] |
| Controller.OneReplyPerMention | MinecraftAI/src/MinecraftAI.cpp:268-274 | the replies press Enter once per mention: one chat message each |
| Controller.MinecraftAI.constructor | MinecraftAI/src/MinecraftAI.cpp:5-24 | fresh components sharing one humanizer, detector and chat handler; not running; default configuration and statistics; the components' settings match the configuration except the reaction time |
| Controller.MinecraftAI.Start | MinecraftAI/src/MinecraftAI.cpp:89-103 | nothing while running; otherwise running, unpaused, the start time now and status "Running" |
| Controller.MinecraftAI.Stop | MinecraftAI/src/MinecraftAI.cpp:105-116 | not running, status "Stopped", not shown paused; the paused flag itself kept |
| Controller.MinecraftAI.Pause | MinecraftAI/src/MinecraftAI.cpp:118-123 | the paused flag toggles and is mirrored in the statistics |
| Controller.MinecraftAI.Resume | MinecraftAI/src/MinecraftAI.cpp:125-129 | unpaused whatever the flag was |
| Controller.MinecraftAI.RunPasses | MinecraftAI/src/MinecraftAI.cpp:131-216 | the loop's sleeps and stop decision are those RunTicks defines |
| Controller.MinecraftAI.OptimizedMainExecutionLoop | MinecraftAI/src/MinecraftAI.cpp:131-220 | nothing unless running; otherwise the passes run as RunTicks says and the breaker clears the running flag |
| Controller.MinecraftAI.SendReplies | MinecraftAI/src/MinecraftAI.cpp:269-273 | one greeting message per mention, in order |
| Controller.MinecraftAI.AnswerMentions | MinecraftAI/src/MinecraftAI.cpp:268-274 | with chat responses on, a reply to each mention of the last 30 seconds; otherwise none |
| Controller.MinecraftAI.StartAtFirstBlock | MinecraftAI/src/MinecraftAI.cpp:277-282 | with blocks, StartMining's state and output at the first block's centre (StartedAt, StartOutput); without, mining fields and humanizer kept and nothing sent |
| Controller.MinecraftAI.FinishBlock | MinecraftAI/src/MinecraftAI.cpp:283-291 | a broken block, or bedrock while avoiding it, counts one more mined block and moves on as MovedOn states (StartMining's state and output at the first block more than 10 pixels from the old target, else stopped with the humanizer untouched); otherwise nothing changes |
| Controller.MinecraftAI.LeaveBlock | MinecraftAI/src/MinecraftAI.cpp:285-286 | MovedOn: StartMining's state and output at the first block more than 10 pixels from the old target; without one, stopped with target, start time and humanizer kept and nothing sent |
| Controller.MinecraftAI.MiningPhase | MinecraftAI/src/MinecraftAI.cpp:276-291 | MiningStepped: idle, start on the first block as StartAtFirstBlock states; mining and finished, one more block mined and MovedOn from the old target; mining and not finished, nothing changes; only the mined count of the statistics may change |
| Controller.MinecraftAI.RespondAndMine | MinecraftAI/src/MinecraftAI.cpp:268-291 | the keys are the replies to the mentions of the last 30 seconds before the first clock reading when chat responses are on; everything else is MiningStepped at the second, later reading taken after the replies were typed |
| Controller.MinecraftAI.ExecuteActions | MinecraftAI/src/MinecraftAI.cpp:258-292 | a player within 3 stops mining and waits a second, with target, start time, humanizer and statistics kept; otherwise the replies to the mentions within 30 seconds of the first clock reading, then MiningStepped on the current state at the second, later reading |
| Controller.MinecraftAI.UpdateStatistics | MinecraftAI/src/MinecraftAI.cpp:294-308 | runtime in whole seconds while running unpaused; the player count copied; efficiency * runtime = 60 * blocks once runtime is positive |
| Controller.MinecraftAI.ApplyConfigToComponents | MinecraftAI/src/MinecraftAI.cpp:407-425 | every component takes its settings from the configuration and keeps the rest of its state |
| Controller.MinecraftAI.UpdateConfig | MinecraftAI/src/MinecraftAI.cpp:366-395 | an invalid configuration is refused and nothing changes; a valid one replaces the configuration and is applied |
| Controller.MinecraftAI.AddKnownPlayer | MinecraftAI/src/MinecraftAI.cpp:427-433 | an absent name goes to the configuration and the detector; no duplicates; the configuration stays valid exactly when the name follows the rule |
| Controller.MinecraftAI.RemoveKnownPlayer | MinecraftAI/src/MinecraftAI.cpp:435-442 | a present name is erased from the configuration and the detector; a duplicate-free list no longer holds it |

## Left out

- Threads, the thread pool, futures and mutexes. The three perception tasks of a pass and its sequential phase are taken as one step, whose outcome (completed, paused or a kind of exception) is an input of `RunTicks`.
- `ProcessGameState`, the perception tasks' calls and `perfMonitor->FrameStart()` inside the loop. Their effects are abstracted into the pass outcome and the frame rate of each `Tick`.
- OpenCV image processing: HOG and skin-colour silhouettes (`DetectPlayerSilhouettes`), edge and contour detection, mean colours and deviation tests, optical flow (`TrackMouseMovement`), the mining detector (`DetectMiningAction`), text recognition (`ExtractChatText`, `RecognizeCharacter`) and regex matching. Their results are parameters.
- Win32 I/O: `FindMinecraftWindow`, `CaptureScreen`, `CaptureOptimizedScreen`, `GetCursorPos` and `SendInput`. Sends are returned as `Output` and sleeps as their durations.
- File and JSON I/O: the memory file, the stats configuration, the known-players file writes and the pattern files (`SaveMemoryToFile`, `LoadMemoryFromFile`, `SavePatternsToFile`, `LoadPatternsFromFile`). The known-players file is read as a list of lines.
- `Initialize`, `TrainFromVideos`, `AnalyzeHumanBehavior` (it only prints averages), `GetLearnedPatterns`, the getters `GetConfig` and `GetStatistics` and the older `MainExecutionLoop`. These are probing, printing or copying I/O with no state of the core.
- `UpdateROIs`, `ProcessRelevantRegions` and `DetectBlocksOptimized`: their bodies are not in the source (PeformanceOptimizations.cpp ends at line 179). The controller's bot is an `OptimizedMinecraftBot` (MinecraftAI.cpp:19-20), whose `CaptureGameState` overrides the base one (MinecraftAI.h:391, 438; PeformanceOptimizations.cpp:143-167) and calls them. Their effect on the ROI rectangles and the cached blocks (MinecraftAI.h:424-433, 444), and on `currentState`, is not modelled: the model takes them to leave `currentState` alone apart from the screenshot. `Bot.MinecraftBot.OptimizedCaptureGameState` models the throttle and the cached screenshot around them.
- The web GUI, `main.cpp` and `SkyblockStats`. The mining speed `SkyblockStats` reports is an input of `IsBlockBroken`. The `SetMiningSpeedMultiplier` call of `ApplyConfigToComponents` is not modelled.
- Float and double rounding. Reals are exact, cursor points are `real` and the fatigue multiplier is in hundredths. The truncating casts to `int` are modelled.
- `sqrt`, clocks and random number generators are parameters. The learner's per-frame time deltas are inputs.
- The restore branch of `UpdateConfig`. The model's setters cannot fail, so applying a validated configuration never throws.
- Humanization.BaseDelay: requires a non-zero rotation speed for "mining". In C++ a zero speed divides to infinity and the cast to `int` is undefined, so that case is not modelled. `MinecraftAI.Valid` keeps the speed at 10 or more through validation.
- Humanization.SortByScore: `std::sort` is unstable. The model fixes one admissible order (insertion by descending score). The corpus properties hold for any order that sorts and keeps the top 100.
- Controller.MinecraftAI.OptimizedMainExecutionLoop: a completed pass runs perception, `ExecuteActions` and `UpdateStatistics` in the source (MinecraftAI.cpp:141-169). The model's loop takes each pass's outcome as an input and does not run them, so its statistics and bot are untouched by the loop. Each of those steps is modelled and proved on its own.
- Controller.MinecraftAI.OptimizedMainExecutionLoop: when the breaker fires the status stays "Running", as in the source, so `Valid` only ties "Running" to the running flag one way.
- Controller.MinecraftAI.AddKnownPlayer: the name is not validated, as in the source. The contract states exactly when the configuration stays valid.
- Players.PlayerDetector.UpdateDetection: the list is cleared before the movement search, so a player is only compared with earlier players of the same frame. The model follows the code, and `FirstDetectionNotMoving` states the consequence.
- Chat.ChatHandler.SendChatMessage: the result lists the key-down codes in order. The key-up events and the 100, 200, 50 and 30 ms pauses between them are not modelled.
- Clock readings inside the mining phase (`IsBlockBroken`, `StartMining`'s start time, `GetHumanizedDelay`) are taken as one reading, because nothing sleeps between them (MinecraftBot.cpp:38-90, 171-181).
- Performance.ComputeHash: the image's type and the channel sums of its three sampled pixels are inputs (`ImageProbe`), because pixel contents are not modelled. `std::hash<int>` is taken as the identity and size_t as 64 bits wide.
- Bot.MinecraftBot.StartMining: the button press and release around the click hold are one click. Their order relative to the mouse move and the sleeps is not kept.
- Learner.VideoLearner.ExtractMovementPatterns: `VideoLearner::CalculateNaturalness` (VideoLearner.cpp:261-295) is the same computation as `HumanizationEngine::CalculateNaturalness`, so both use `Humanization.Naturalness`.
