// MinecraftAI.cpp and the data defaults of MinecraftAI.h: the supervisory
// controller that owns the components, validates and applies the
// configuration, runs the per-pass error policy of the main loop and picks
// the actions of a pass.

module Controller {
  import opened CNumerics
  import opened Sequences
  import opened Text
  import opened Geometry
  import opened Humanization
  import opened Players
  import opened Chat
  import opened Bot

  // ----- Configuration and statistics (MinecraftAI.h) -----

  /** AIConfig, the settings the GUI edits. */
  datatype AIConfig = AIConfig(
    mouseSensitivity: real, miningRotationSpeed: int, treeRotationSpeed: int,
    movementSpeed: int, miningSpeed: int, breakFrequency: int, actionDelay: int,
    humanizationLevel: int, reactionTime: int, detectionRadius: int,
    botUsername: string, miningMode: string,
    smoothRotation: bool, humanizeMovement: bool, autoSwitchTools: bool,
    avoidBedrock: bool, chatResponses: bool, pauseOnPlayer: bool,
    knownPlayers: seq<string>)

  const DefaultConfig := AIConfig(1.0, 100, 80, 100, 150, 20, 150, 80, 200, 16,
                                  "MinecraftAI", "blocks", true, true, true, true, true, true, [])

  /** AIStats, the figures the GUI shows. */
  datatype AIStats = AIStats(blocksMined: int, runtime: int, playersDetected: int,
                             efficiency: real, status: string, isPaused: bool)

  const DefaultStats := AIStats(0, 0, 0, 0.0, "Stopped", false)

  const VALID_MODES: seq<string> := ["blocks", "ores", "trees", "mixed"]

  /** Consecutive failed passes that stop the main loop. */
  const MAX_CONSECUTIVE_ERRORS: nat := 5

  /** The back-off after an OpenCV or unknown error, and after any other
      standard exception. */
  const CV_ERROR_SLEEP_MS: int := 1000
  const STD_ERROR_SLEEP_MS: int := 500

  /** Above this frame rate a pass sleeps the action delay, otherwise twice it. */
  const FAST_FPS: real := 30.0

  /** A player this close makes the bot stop mining and wait a second. */
  const PLAYER_PAUSE_RADIUS: real := 3.0
  const PLAYER_PAUSE_MS: int := 1000

  const REPLY_GREETING: string := "Hello "
  const REPLY_SUFFIX: string := "! I'm just mining here."

  // ----- ValidateConfig -----

  /** The name rule: 3 to 16 characters, each from [a-zA-Z0-9_]. */
  predicate ValidName(s: string)
  {
    3 <= |s| <= 16 && forall i :: 0 <= i < |s| ==> IsWordChar(s[i])
  }

  /** regex_match against ^[a-zA-Z0-9_]+$, one character at a time. */
  function MatchesWord(s: string): (ok: bool)
    ensures ok <==> s != [] && forall i :: 0 <= i < |s| ==> IsWordChar(s[i])
  {
    if s == [] then false
    else if !IsWordChar(s[0]) then false
    else |s| == 1 || MatchesWord(s[1..])
  }

  /** The known-players loop of ValidateConfig: every name passes the
      length check and then the character check. */
  function KnownPlayersPass(names: seq<string>): (ok: bool)
    ensures ok <==> forall k :: 0 <= k < |names| ==> ValidName(names[k])
  {
    if names == [] then true
    else if |names[0]| < 3 || |names[0]| > 16 then false
    else if !MatchesWord(names[0]) then false
    else KnownPlayersPass(names[1..])
  }

  /** The numeric ranges ValidateConfig checks; the other numbers are free. */
  predicate InRanges(c: AIConfig)
  {
    && 0.1 <= c.mouseSensitivity <= 5.0
    && 10 <= c.miningRotationSpeed <= 500
    && 0 <= c.humanizationLevel <= 100
    && 10 <= c.actionDelay <= 5000
    && 1 <= c.detectionRadius <= 50
  }

  /** ValidateConfig: the checks in the order the source makes them, each
      failing one ending the validation. A configuration passes exactly
      when its numbers are in range, the bot's name and every known
      player's name follow the name rule and the mining mode is one of the
      four known modes. */
  function ValidateConfig(c: AIConfig): (ok: bool)
    ensures ok <==> && InRanges(c) && ValidName(c.botUsername) && c.miningMode in VALID_MODES
                    && forall k :: 0 <= k < |c.knownPlayers| ==> ValidName(c.knownPlayers[k])
  {
    if c.mouseSensitivity < 0.1 || c.mouseSensitivity > 5.0 then false
    else if c.miningRotationSpeed < 10 || c.miningRotationSpeed > 500 then false
    else if c.humanizationLevel < 0 || c.humanizationLevel > 100 then false
    else if c.actionDelay < 10 || c.actionDelay > 5000 then false
    else if c.detectionRadius < 1 || c.detectionRadius > 50 then false
    else if |c.botUsername| < 3 || |c.botUsername| > 16 then false
    else if !MatchesWord(c.botUsername) then false
    else if c.miningMode !in VALID_MODES then false
    else KnownPlayersPass(c.knownPlayers)
  }

  /** The default configuration passes validation. */
  lemma DefaultConfigValid()
    ensures ValidateConfig(DefaultConfig)
  {
    var name := DefaultConfig.botUsername;
    assert forall i :: 0 <= i < |name| ==> IsWordChar(name[i]) by {
      forall i | 0 <= i < |name|
        ensures IsWordChar(name[i])
      {
        assert name == ['M', 'i', 'n', 'e', 'c', 'r', 'a', 'f', 't', 'A', 'I'];
      }
    }
  }

  // ----- The main loop's error policy -----

  /** How a pass of the main loop ended: paused (nothing done), completed
      (perception, actions and statistics done), or with a cv::Exception,
      another std::exception or anything else thrown by the sequential
      phase. */
  datatype Outcome = Paused | Completed | CvError | StdError | UnknownError

  /** One pass: how it ended and the frame rate the monitor reported. */
  datatype Tick = Tick(outcome: Outcome, fps: real)

  predicate IsFailure(o: Outcome)
  {
    o.CvError? || o.StdError? || o.UnknownError?
  }

  /** The consecutive-error count after a pass. */
  function NextErrors(errors: nat, o: Outcome): (e: nat)
    ensures IsFailure(o) ==> e == errors + 1
    ensures o == Completed ==> e == 0
    ensures o == Paused ==> e == errors
  {
    match o
    case Paused => errors
    case Completed => 0
    case _ => errors + 1
  }

  /** The sleep after a pass that did not stop the loop. */
  function TickSleep(t: Tick, actionDelay: int): (ms: int)
    ensures IsFailure(t.outcome) ==> ms in {STD_ERROR_SLEEP_MS, CV_ERROR_SLEEP_MS}
    ensures !IsFailure(t.outcome) ==> ms == actionDelay || ms == actionDelay * 2
    ensures !IsFailure(t.outcome) && t.fps > FAST_FPS ==> ms == actionDelay
    ensures 10 <= actionDelay <= 5000 ==> 10 <= ms <= 10000
  {
    match t.outcome
    case Paused => if t.fps > FAST_FPS then actionDelay else actionDelay * 2
    case Completed => if t.fps > FAST_FPS then actionDelay else actionDelay * 2
    case StdError => STD_ERROR_SLEEP_MS
    case _ => CV_ERROR_SLEEP_MS
  }

  /** The passes `ticks`, entered with `errors` consecutive failures: the
      sleeps taken and whether the breaker stopped the loop. */
  function RunTicks(errors: nat, ticks: seq<Tick>, actionDelay: int): (r: (seq<int>, bool))
    ensures |r.0| <= |ticks|
    decreases |ticks|
  {
    if ticks == [] then ([], false)
    else
      var e := NextErrors(errors, ticks[0].outcome);
      if e >= MAX_CONSECUTIVE_ERRORS then ([], true)
      else
        var rest := RunTicks(e, ticks[1..], actionDelay);
        ([TickSleep(ticks[0], actionDelay)] + rest.0, rest.1)
  }

  /** RunTicks on the passes from the i-th on, one pass unfolded. */
  lemma RunTicksFrom(errors: nat, ticks: seq<Tick>, i: nat, actionDelay: int)
    requires i < |ticks|
    ensures var e := NextErrors(errors, ticks[i].outcome);
            var rest := RunTicks(e, ticks[i + 1..], actionDelay);
            RunTicks(errors, ticks[i..], actionDelay)
            == if e >= MAX_CONSECUTIVE_ERRORS then ([], true)
               else ([TickSleep(ticks[i], actionDelay)] + rest.0, rest.1)
  {
    assert ticks[i..][0] == ticks[i] && ticks[i..][1..] == ticks[i + 1..];
  }

  /** The consecutive-error count after the passes `ticks`, ignoring the
      breaker: an independent account of the counter. */
  function Streak(errors: nat, ticks: seq<Tick>): nat
  {
    if ticks == [] then errors
    else NextErrors(Streak(errors, ticks[..|ticks| - 1]), ticks[|ticks| - 1].outcome)
  }

  /** The count after the first i + 1 passes. */
  function PrefixStreak(errors: nat, ticks: seq<Tick>, i: nat): nat
    requires i < |ticks|
  {
    Streak(errors, ticks[..i + 1])
  }

  lemma {:induction false} StreakFront(errors: nat, ticks: seq<Tick>)
    requires ticks != []
    ensures Streak(errors, ticks) == Streak(NextErrors(errors, ticks[0].outcome), ticks[1..])
    decreases |ticks|
  {
    if |ticks| > 1 {
      var init := ticks[..|ticks| - 1];
      assert init[0] == ticks[0];
      assert init[1..] == ticks[1..][..|ticks[1..]| - 1];
      StreakFront(errors, init);
    } else {
      assert ticks[1..] == [];
    }
  }

  /** The failed passes among `ticks`. */
  function Failures(ticks: seq<Tick>): (n: nat)
    ensures n <= |ticks|
  {
    if ticks == [] then 0
    else (if IsFailure(ticks[0].outcome) then 1 else 0) + Failures(ticks[1..])
  }

  lemma {:induction false} FailuresSnoc(ticks: seq<Tick>, t: Tick)
    ensures Failures(ticks + [t]) == Failures(ticks) + (if IsFailure(t.outcome) then 1 else 0)
    decreases |ticks|
  {
    if ticks == [] {
      assert [t][1..] == [];
    } else {
      assert (ticks + [t])[1..] == ticks[1..] + [t];
      FailuresSnoc(ticks[1..], t);
    }
  }

  /** The consecutive-error count is the number of failed passes since the
      last completed one (j is the position just after it), or since entry,
      on top of the entry count, when none completed: a completed pass
      resets it, a pause neither resets nor advances it. */
  lemma {:induction false} StreakCountsFailuresSinceCompleted(errors: nat, ticks: seq<Tick>, j: nat)
    requires j <= |ticks|
    requires j > 0 ==> ticks[j - 1].outcome == Completed
    requires forall k :: j <= k < |ticks| ==> ticks[k].outcome != Completed
    ensures Streak(errors, ticks) == (if j == 0 then errors else 0) + Failures(ticks[j..])
    decreases |ticks|
  {
    if |ticks| == j {
      assert ticks[j..] == [];
    } else {
      var init := ticks[..|ticks| - 1];
      StreakCountsFailuresSinceCompleted(errors, init, j);
      assert ticks == init + [ticks[|ticks| - 1]];
      assert ticks[j..] == init[j..] + [ticks[|ticks| - 1]];
      FailuresSnoc(init[j..], ticks[|ticks| - 1]);
    }
  }

  /** The breaker fires exactly when some prefix of the passes brings the
      consecutive-error count to 5. */
  lemma {:induction false} StopsIffStreakReachesLimit(errors: nat, ticks: seq<Tick>, actionDelay: int)
    ensures RunTicks(errors, ticks, actionDelay).1
            <==> exists i :: 0 <= i < |ticks| && PrefixStreak(errors, ticks, i) >= MAX_CONSECUTIVE_ERRORS
    decreases |ticks|
  {
    if ticks != [] {
      var e := NextErrors(errors, ticks[0].outcome);
      assert ticks[..1][..0] == [] && ticks[..1][0] == ticks[0];
      assert Streak(errors, ticks[..1]) == e;
      assert PrefixStreak(errors, ticks, 0) == e;
      if e < MAX_CONSECUTIVE_ERRORS {
        var tail := ticks[1..];
        StopsIffStreakReachesLimit(e, tail, actionDelay);
        forall i | 0 <= i < |tail|
          ensures PrefixStreak(errors, ticks, i + 1) == PrefixStreak(e, tail, i)
        {
          StreakFront(errors, ticks[..i + 2]);
          assert ticks[..i + 2][1..] == tail[..i + 1];
        }
        if RunTicks(errors, ticks, actionDelay).1 {
          var i :| 0 <= i < |tail| && PrefixStreak(e, tail, i) >= MAX_CONSECUTIVE_ERRORS;
          assert PrefixStreak(errors, ticks, i + 1) >= MAX_CONSECUTIVE_ERRORS;
        }
        if exists i :: 0 <= i < |ticks| && PrefixStreak(errors, ticks, i) >= MAX_CONSECUTIVE_ERRORS {
          var i :| 0 <= i < |ticks| && PrefixStreak(errors, ticks, i) >= MAX_CONSECUTIVE_ERRORS;
          assert i > 0;
          assert PrefixStreak(e, tail, i - 1) >= MAX_CONSECUTIVE_ERRORS;
        }
      }
    }
  }

  /** Five failed passes in a row (counting the failures already seen) stop
      the loop before the last of them sleeps; each earlier one backs off
      500 or 1000 ms. */
  lemma {:induction false} ConsecutiveFailuresStop(errors: nat, ticks: seq<Tick>, actionDelay: int)
    requires errors < MAX_CONSECUTIVE_ERRORS
    requires |ticks| >= MAX_CONSECUTIVE_ERRORS - errors
    requires forall k :: 0 <= k < MAX_CONSECUTIVE_ERRORS - errors ==> IsFailure(ticks[k].outcome)
    ensures RunTicks(errors, ticks, actionDelay).1
    ensures |RunTicks(errors, ticks, actionDelay).0| == MAX_CONSECUTIVE_ERRORS - 1 - errors
    ensures forall k :: 0 <= k < |RunTicks(errors, ticks, actionDelay).0| ==>
              RunTicks(errors, ticks, actionDelay).0[k] in {STD_ERROR_SLEEP_MS, CV_ERROR_SLEEP_MS}
    decreases MAX_CONSECUTIVE_ERRORS - errors
  {
    var e := NextErrors(errors, ticks[0].outcome);
    if e < MAX_CONSECUTIVE_ERRORS {
      var tail := ticks[1..];
      forall k | 0 <= k < MAX_CONSECUTIVE_ERRORS - e
        ensures IsFailure(tail[k].outcome)
      {
        assert tail[k] == ticks[k + 1];
      }
      ConsecutiveFailuresStop(e, tail, actionDelay);
    }
  }

  /** Without failures the loop never stops itself: every pass sleeps the
      action delay, or twice it when the frame rate is 30 or less. */
  lemma {:induction false} NoFailuresNoStop(errors: nat, ticks: seq<Tick>, actionDelay: int)
    requires errors < MAX_CONSECUTIVE_ERRORS
    requires forall k :: 0 <= k < |ticks| ==> !IsFailure(ticks[k].outcome)
    ensures !RunTicks(errors, ticks, actionDelay).1
    ensures |RunTicks(errors, ticks, actionDelay).0| == |ticks|
    ensures forall k :: 0 <= k < |ticks| ==>
              RunTicks(errors, ticks, actionDelay).0[k]
              == if ticks[k].fps > FAST_FPS then actionDelay else actionDelay * 2
    decreases |ticks|
  {
    if ticks != [] {
      var tail := ticks[1..];
      assert forall k :: 0 <= k < |tail| ==> tail[k] == ticks[k + 1];
      NoFailuresNoStop(NextErrors(errors, ticks[0].outcome), tail, actionDelay);
    }
  }

  /** With a validated action delay every sleep of the loop lies between
      10 ms and 10 s. */
  lemma {:induction false} SleepsBounded(errors: nat, ticks: seq<Tick>, actionDelay: int)
    requires 10 <= actionDelay <= 5000
    ensures forall k :: 0 <= k < |RunTicks(errors, ticks, actionDelay).0| ==>
              10 <= RunTicks(errors, ticks, actionDelay).0[k] <= 10000
    decreases |ticks|
  {
    if ticks != [] {
      var e := NextErrors(errors, ticks[0].outcome);
      if e < MAX_CONSECUTIVE_ERRORS {
        SleepsBounded(e, ticks[1..], actionDelay);
      }
    }
  }

  // ----- Replies and output -----

  /** The reply to a mention. */
  function Reply(m: ChatMessage): string
  {
    REPLY_GREETING + m.playerName + REPLY_SUFFIX
  }

  /** The keys of one reply per mention, in order, each typed as a chat
      message (T, the text, Enter). */
  function ReplyKeys(mentions: seq<ChatMessage>): (keys: seq<int>)
  {
    if mentions == [] then []
    else ReplyKeys(mentions[..|mentions| - 1]) + ([VK_T] + KeysFor(Reply(mentions[|mentions| - 1])) + [VK_RETURN])
  }

  /** One chat message is sent per mention: the replies press Enter exactly
      once per mention, since no text key is the Enter key. */
  lemma {:induction false} OneReplyPerMention(mentions: seq<ChatMessage>)
    ensures multiset(ReplyKeys(mentions))[VK_RETURN] == |mentions|
  {
    if mentions != [] {
      var m := mentions[|mentions| - 1];
      var text := KeysFor(Reply(m));
      KeysAreLettersOrSpace(Reply(m));
      assert VK_RETURN !in text;
      OneReplyPerMention(mentions[..|mentions| - 1]);
      assert multiset([VK_T] + text + [VK_RETURN])[VK_RETURN] == 1;
    }
  }

  // ----- The controller -----

  /** MinecraftAI: the components, the running and paused flags, the
      configuration, the statistics and the start time (a clock reading in
      milliseconds). The stats, learner, GUI, thread pool, cache and
      performance monitor are not part of this class. */
  class MinecraftAI {
    const bot: MinecraftBot
    const humanizer: HumanizationEngine
    const playerDetector: PlayerDetector
    const chatHandler: ChatHandler

    var running: bool
    var paused: bool
    var config: AIConfig
    var statistics: AIStats
    var startTime: int

    /** The bot shares the controller's components; the humanizer's table
        is usable (the rotation speed divides); the statistics never claim a
        pause the flag does not have, nor a stop while running. */
    ghost predicate Valid()
      reads this, bot, humanizer
    {
      && bot.humanizer == humanizer && bot.playerDetector == playerDetector && bot.chatHandler == chatHandler
      && humanizer.Valid() && humanizer.rotationSpeed >= 10
      && (statistics.isPaused ==> paused)
      && (running ==> statistics.status == "Running")
    }

    /** The components as the configuration sets them. */
    ghost predicate Applied()
      reads this, bot, humanizer, playerDetector, chatHandler
    {
      && humanizer.mouseSensitivity == config.mouseSensitivity
      && humanizer.rotationSpeed == config.miningRotationSpeed
      && humanizer.humanizationLevel == config.humanizationLevel
      && humanizer.baseReactionTime == config.reactionTime
      && playerDetector.detectionRadius == config.detectionRadius as real
      && chatHandler.botName == config.botUsername
      && chatHandler.enabledResponses == config.chatResponses
      && bot.Settings() == (config.miningMode, config.autoSwitchTools, config.avoidBedrock,
                            config.pauseOnPlayer, config.actionDelay)
    }

    /** The constructor at clock reading `now`, with `knownPlayersFile` the
        lines of the known-players file. Every component starts at its
        defaults, which agree with the default configuration except the
        reaction time (150 in the humanizer, 200 in the configuration) until
        the configuration is first applied. */
    constructor(now: int, knownPlayersFile: seq<string>)
      ensures Valid()
      ensures !running && !paused && config == DefaultConfig && statistics == DefaultStats
      ensures fresh(bot) && fresh(humanizer) && fresh(playerDetector) && fresh(chatHandler)
      ensures humanizer.baseReactionTime == DEFAULT_BASE_REACTION
      ensures humanizer.mouseSensitivity == config.mouseSensitivity
      ensures humanizer.rotationSpeed == config.miningRotationSpeed
      ensures humanizer.humanizationLevel == config.humanizationLevel
      ensures playerDetector.detectionRadius == config.detectionRadius as real
      ensures chatHandler.botName == config.botUsername && chatHandler.enabledResponses == config.chatResponses
      ensures bot.Settings() == (config.miningMode, config.autoSwitchTools, config.avoidBedrock,
                                 config.pauseOnPlayer, config.actionDelay)
    {
      var h := new HumanizationEngine(now);
      var pd := new PlayerDetector(knownPlayersFile);
      var ch := new ChatHandler("MinecraftAI");
      var b := new MinecraftBot(h, pd, ch, now);
      humanizer := h;
      playerDetector := pd;
      chatHandler := ch;
      bot := b;
      running := false;
      paused := false;
      config := DefaultConfig;
      statistics := DefaultStats;
      startTime := 0;
    }

    /** Start at clock reading `now`: nothing while running; otherwise the
        loop is marked running and unpaused, the start time recorded and the
        status set to "Running". The loop itself is OptimizedMainExecutionLoop. */
    method Start(now: int)
      requires Valid()
      modifies this
      ensures Valid()
      ensures old(running) ==> paused == old(paused) && startTime == old(startTime) && statistics == old(statistics)
      ensures !old(running) ==> !paused && startTime == now
                                && statistics == old(statistics).(status := "Running", isPaused := false)
      ensures running && config == old(config)
    {
      if running {
        return;
      }
      running := true;
      paused := false;
      startTime := now;
      statistics := statistics.(status := "Running", isPaused := false);
    }

    /** Stop: the loop is told to end and the status becomes "Stopped";
        the paused flag is left as it is. */
    method Stop()
      requires Valid()
      modifies this
      ensures Valid()
      ensures !running && paused == old(paused)
      ensures statistics == old(statistics).(status := "Stopped", isPaused := false)
      ensures config == old(config) && startTime == old(startTime)
    {
      running := false;
      statistics := statistics.(status := "Stopped", isPaused := false);
    }

    /** Pause: the paused flag is toggled and mirrored in the statistics. */
    method Pause()
      requires Valid()
      modifies this
      ensures Valid()
      ensures paused == !old(paused)
      ensures statistics == old(statistics).(isPaused := paused)
      ensures running == old(running) && config == old(config) && startTime == old(startTime)
    {
      paused := !paused;
      statistics := statistics.(isPaused := paused);
    }

    /** Resume: the loop is unpaused whatever the flag was. */
    method Resume()
      requires Valid()
      modifies this
      ensures Valid()
      ensures !paused
      ensures statistics == old(statistics).(isPaused := false)
      ensures running == old(running) && config == old(config) && startTime == old(startTime)
    {
      paused := false;
      statistics := statistics.(isPaused := false);
    }

    /** The passes of OptimizedMainExecutionLoop with the action delay
        `actionDelay`: each failed pass counts one more consecutive error,
        and reaching 5 leaves the loop at once; a completed pass resets the
        count and a paused one keeps it. The result is the sleeps taken, in
        order, and whether the breaker fired. */
    static method RunPasses(ticks: seq<Tick>, actionDelay: int) returns (sleeps: seq<int>, stopped: bool)
      ensures (sleeps, stopped) == RunTicks(0, ticks, actionDelay)
    {
      sleeps := [];
      var consecutiveErrors: nat := 0;
      var i := 0;
      while i < |ticks|
        invariant 0 <= i <= |ticks| && consecutiveErrors < MAX_CONSECUTIVE_ERRORS
        invariant RunTicks(0, ticks, actionDelay).0 == sleeps + RunTicks(consecutiveErrors, ticks[i..], actionDelay).0
        invariant RunTicks(0, ticks, actionDelay).1 == RunTicks(consecutiveErrors, ticks[i..], actionDelay).1
      {
        var tick := ticks[i];
        RunTicksFrom(consecutiveErrors, ticks, i, actionDelay);
        ghost var rest := RunTicks(NextErrors(consecutiveErrors, tick.outcome), ticks[i + 1..], actionDelay);
        var delay;
        if !IsFailure(tick.outcome) {
          if tick.outcome == Completed {
            consecutiveErrors := 0;
          }
          delay := if tick.fps > FAST_FPS then actionDelay else actionDelay * 2;
        } else {
          consecutiveErrors := consecutiveErrors + 1;
          if consecutiveErrors >= MAX_CONSECUTIVE_ERRORS {
            assert sleeps + [] == sleeps;
            return sleeps, true;
          }
          delay := if tick.outcome == StdError then STD_ERROR_SLEEP_MS else CV_ERROR_SLEEP_MS;
        }
        assert rest == RunTicks(consecutiveErrors, ticks[i + 1..], actionDelay);
        assert delay == TickSleep(tick, actionDelay);
        AppendAssoc(sleeps, [delay], rest.0);
        sleeps := sleeps + [delay];
        i := i + 1;
      }
      assert ticks[i..] == [];
      assert sleeps + [] == sleeps;
      stopped := false;
    }

    /** OptimizedMainExecutionLoop over the passes `ticks` that happen
        before the loop is stopped from outside: nothing unless running;
        otherwise the passes run as RunPasses says, and when the breaker
        fires the running flag is cleared (the status is left as it is). */
    method OptimizedMainExecutionLoop(ticks: seq<Tick>) returns (sleeps: seq<int>)
      requires Valid()
      modifies this
      ensures Valid()
      ensures !old(running) ==> sleeps == [] && !running
      ensures old(running) ==> sleeps == RunTicks(0, ticks, config.actionDelay).0
                               && running == !RunTicks(0, ticks, config.actionDelay).1
      ensures paused == old(paused) && config == old(config) && statistics == old(statistics)
      ensures startTime == old(startTime)
    {
      sleeps := [];
      if !running {
        return;
      }
      var stopped;
      sleeps, stopped := RunPasses(ticks, config.actionDelay);
      if stopped {
        running := false;
      }
    }

    /** The reply loop of ExecuteActions: one chat message per mention. */
    method SendReplies(mentions: seq<ChatMessage>) returns (keys: seq<int>)
      ensures keys == ReplyKeys(mentions)
    {
      var ch := chatHandler;
      keys := [];
      var i := 0;
      while i < |mentions|
        invariant 0 <= i <= |mentions|
        invariant keys == ReplyKeys(mentions[..i])
      {
        assert mentions[..i + 1][..i] == mentions[..i];
        var response := REPLY_GREETING + mentions[i].playerName + REPLY_SUFFIX;
        var sent := ch.SendChatMessage(response);
        keys := keys + sent;
        i := i + 1;
      }
      assert mentions[..i] == mentions;
    }

    /** The chat part of ExecuteActions at clock reading `now`: with chat
        responses on and a mention in the last 30 seconds, a reply to each
        such mention. */
    method AnswerMentions(now: int) returns (keys: seq<int>)
      ensures keys == if config.chatResponses then ReplyKeys(RecentMentions(chatHandler.recentMessages, MENTION_WINDOW_S, now))
                      else []
    {
      keys := [];
      var ch := chatHandler;
      if config.chatResponses {
        var mentioned := ch.WasMentioned(now);
        if mentioned {
          var mentions := ch.GetRecentMentions(MENTION_WINDOW_S, now);
          keys := SendReplies(mentions);
        }
      }
    }

    /** An idle bot's mining step on `blocks` at clock reading `now`: with a
        block, mining starts at the centre of the first one, exactly as
        StartMining leaves the bot and the humaniser and with its output;
        without one, neither the mining fields nor the humaniser change and
        nothing is sent. */
    twostate predicate StartedOnFirst(blocks: seq<Rect>, now: int, dr: MiningDraws, sqrt: real -> real, out: Output)
      reads bot, bot.humanizer
      requires IsSqrt(sqrt)
    {
      if blocks != [] then
        bot.humanizer.rotationSpeed != 0 && bot.StartedAt(Centre(blocks[0]), now)
        && out == bot.StartOutput(Centre(blocks[0]), dr, sqrt)
      else
        bot.MiningKept() && out == NoOutput
    }

    /** Leaving the block at `from` at clock reading `now`: mining starts at
        the centre of the first block of `blocks` more than 10 pixels from
        `from`, as StartMining leaves the bot and the humaniser and with its
        output; without one, mining stops, the target and start time stay,
        the humaniser is untouched and nothing is sent. */
    twostate predicate MovedOn(blocks: seq<Rect>, from: Point, now: int, dr: MiningDraws, sqrt: real -> real, out: Output)
      reads bot, bot.humanizer
      requires IsSqrt(sqrt)
    {
      match FirstFarFrom(blocks, from, sqrt, 0)
      case None =>
        !bot.isMining && bot.currentMiningTarget == from && bot.miningStartTime == old(bot.miningStartTime)
        && unchanged(bot.humanizer) && out == NoOutput
      case Some(k) =>
        bot.humanizer.rotationSpeed != 0 && bot.StartedAt(Centre(blocks[k]), now)
        && out == bot.StartOutput(Centre(blocks[k]), dr, sqrt)
    }

    /** Whether the block being mined is finished at clock reading `now`:
        broken at `miningSpeed`, or bedrock while bedrock is avoided. */
    predicate Finished(state: GameState, now: int, miningSpeed: real)
      reads this, bot
    {
      bot.IsBlockBroken(now, miningSpeed) || (config.avoidBedrock && state.currentBlockType == "bedrock")
    }

    /** The mining part of ExecuteActions on `state` at clock reading `now`:
        an idle bot starts on the first block; a mining bot whose block is
        finished counts one more block mined and moves on from its old
        target; a mining bot whose block is not finished changes nothing.
        Only the mined count of the statistics may change. */
    twostate predicate MiningStepped(state: GameState, now: int, miningSpeed: real, dr: MiningDraws,
                                     sqrt: real -> real, out: Output)
      reads this, bot, bot.humanizer
      requires IsSqrt(sqrt)
    {
      if !old(bot.isMining) then
        statistics == old(statistics) && StartedOnFirst(state.detectedBlocks, now, dr, sqrt, out)
      else if old(Finished(state, now, miningSpeed)) then
        statistics == old(statistics).(blocksMined := old(statistics.blocksMined) + 1)
        && MovedOn(state.detectedBlocks, old(bot.currentMiningTarget), now, dr, sqrt, out)
      else
        statistics == old(statistics) && bot.MiningKept() && out == NoOutput
    }

    /** The idle case of the mining part of ExecuteActions at clock reading
        `now`, with `state` the game state read at its start: mining starts
        at the centre of the first detected block, if there is one. */
    method StartAtFirstBlock(state: GameState, now: int, dr: MiningDraws, sqrt: real -> real)
      returns (out: Output)
      requires Valid() && IsSqrt(sqrt) && DrawsFit(dr, humanizer) && state == bot.currentState
      modifies bot, humanizer
      ensures Valid() && unchanged(this)
      ensures bot.currentState == old(bot.currentState) && bot.Settings() == old(bot.Settings())
      ensures bot.Capture() == old(bot.Capture())
      ensures StartedOnFirst(state.detectedBlocks, now, dr, sqrt, out)
    {
      out := NoOutput;
      if state.detectedBlocks != [] {
        var b := bot;
        var target := Centre(state.detectedBlocks[0]);
        out := b.StartMining(target, now, dr, sqrt);
      }
    }

    /** The mining case of the mining part of ExecuteActions at clock
        reading `now`: when the block broke, or is bedrock and bedrock is
        avoided, mining stops, moves on to the next block and the mined
        count goes up by one; otherwise nothing happens. */
    method FinishBlock(state: GameState, now: int, miningSpeed: real, dr: MiningDraws, sqrt: real -> real)
      returns (out: Output)
      requires Valid() && IsSqrt(sqrt) && DrawsFit(dr, humanizer) && state == bot.currentState
      modifies this, bot, humanizer
      ensures Valid()
      ensures running == old(running) && paused == old(paused) && config == old(config)
      ensures startTime == old(startTime)
      ensures bot.currentState == old(bot.currentState) && bot.Settings() == old(bot.Settings())
      ensures bot.Capture() == old(bot.Capture())
      ensures !old(Finished(state, now, miningSpeed)) ==>
        statistics == old(statistics) && bot.MiningKept() && out == NoOutput
      ensures old(Finished(state, now, miningSpeed)) ==>
        statistics == old(statistics).(blocksMined := old(statistics.blocksMined) + 1)
        && MovedOn(state.detectedBlocks, old(bot.currentMiningTarget), now, dr, sqrt, out)
    {
      out := NoOutput;
      var broken := bot.IsBlockBroken(now, miningSpeed);
      if broken || (config.avoidBedrock && state.currentBlockType == "bedrock") {
        out := LeaveBlock(state, now, dr, sqrt);
        statistics := statistics.(blocksMined := statistics.blocksMined + 1);
      }
    }

    /** The bot's side of a finished block: mining stops and moves on to the
        first detected block far enough from the old target, if any. */
    method LeaveBlock(state: GameState, now: int, dr: MiningDraws, sqrt: real -> real)
      returns (out: Output)
      requires Valid() && IsSqrt(sqrt) && DrawsFit(dr, humanizer) && state == bot.currentState
      modifies bot, humanizer
      ensures Valid() && unchanged(this)
      ensures bot.currentState == old(bot.currentState) && bot.Settings() == old(bot.Settings())
      ensures bot.Capture() == old(bot.Capture())
      ensures MovedOn(state.detectedBlocks, old(bot.currentMiningTarget), now, dr, sqrt, out)
    {
      var b := bot;
      b.StopMining();
      out := b.MoveToNextBlock(now, dr, sqrt);
    }

    /** The part of ExecuteActions after the player check: the mentions are
        answered at clock reading `now`, then, at the later reading `mineNow`
        taken after the replies were typed, an idle bot starts on the first
        block and a mining one finishes its block. */
    method RespondAndMine(state: GameState, now: int, mineNow: int, miningSpeed: real, dr: MiningDraws,
                          sqrt: real -> real)
      returns (out: Output)
      requires Valid() && IsSqrt(sqrt) && DrawsFit(dr, humanizer) && state == bot.currentState
      requires now <= mineNow  // a steady clock never goes back
      modifies this, bot, humanizer
      ensures Valid()
      ensures running == old(running) && paused == old(paused) && config == old(config)
      ensures startTime == old(startTime)
      ensures bot.currentState == old(bot.currentState) && bot.Settings() == old(bot.Settings())
      ensures out.keys == (if config.chatResponses
                           then ReplyKeys(old(RecentMentions(chatHandler.recentMessages, MENTION_WINDOW_S, now)))
                           else [])
      ensures MiningStepped(state, mineNow, miningSpeed, dr, sqrt, out.(keys := []))
    {
      var keys := AnswerMentions(now);
      var mined := MiningPhase(state, mineNow, miningSpeed, dr, sqrt);
      out := mined.(keys := keys);
    }

    /** The mining part of ExecuteActions: an idle bot starts on the first
        block, a mining one finishes its block. */
    method MiningPhase(state: GameState, now: int, miningSpeed: real, dr: MiningDraws, sqrt: real -> real)
      returns (out: Output)
      requires Valid() && IsSqrt(sqrt) && DrawsFit(dr, humanizer) && state == bot.currentState
      modifies this, bot, humanizer
      ensures Valid()
      ensures running == old(running) && paused == old(paused) && config == old(config)
      ensures startTime == old(startTime)
      ensures bot.currentState == old(bot.currentState) && bot.Settings() == old(bot.Settings())
      ensures out.keys == []
      ensures MiningStepped(state, now, miningSpeed, dr, sqrt, out)
    {
      if !bot.isMining {
        out := StartAtFirstBlock(state, now, dr, sqrt);
      } else {
        out := FinishBlock(state, now, miningSpeed, dr, sqrt);
      }
    }

    /** ExecuteActions, with `miningSpeed` the speed the stats component
        reports and `dr` the draws a mining start uses. With player pausing on
        and a player within 3, mining stops and the bot waits a second, and
        nothing else happens; otherwise the mentions are answered at clock
        reading `now` and then the mining phase runs at the reading `mineNow`
        taken once the replies have been typed. */
    method ExecuteActions(now: int, mineNow: int, miningSpeed: real, dr: MiningDraws, sqrt: real -> real)
      returns (out: Output)
      requires Valid() && IsSqrt(sqrt) && DrawsFit(dr, humanizer)
      requires now <= mineNow  // a steady clock never goes back
      modifies this, bot, humanizer
      ensures Valid()
      ensures running == old(running) && paused == old(paused) && config == old(config)
      ensures startTime == old(startTime)
      ensures bot.currentState == old(bot.currentState) && bot.Settings() == old(bot.Settings())
      ensures old(config.pauseOnPlayer && AnyNearby(playerDetector.detectedPlayers, "", PLAYER_PAUSE_RADIUS)) ==>
        !bot.isMining && bot.currentMiningTarget == old(bot.currentMiningTarget)
        && bot.miningStartTime == old(bot.miningStartTime) && unchanged(humanizer)
        && statistics == old(statistics) && out == Output([], 0, [], [PLAYER_PAUSE_MS])
      ensures !old(config.pauseOnPlayer && AnyNearby(playerDetector.detectedPlayers, "", PLAYER_PAUSE_RADIUS)) ==>
        out.keys == (if config.chatResponses
                     then ReplyKeys(old(RecentMentions(chatHandler.recentMessages, MENTION_WINDOW_S, now)))
                     else [])
        && MiningStepped(bot.currentState, mineNow, miningSpeed, dr, sqrt, out.(keys := []))
    {
      var state := bot.currentState;
      var b, pd := bot, playerDetector;
      var near := false;
      if config.pauseOnPlayer {
        near := pd.IsPlayerNearby("", PLAYER_PAUSE_RADIUS);
      }
      if near {
        b.StopMining();
        return Output([], 0, [], [PLAYER_PAUSE_MS]);
      }
      out := RespondAndMine(state, now, mineNow, miningSpeed, dr, sqrt);
    }

    /** UpdateStatistics at clock reading `now`: while running unpaused the
        runtime becomes the whole seconds since the start; the player count
        is copied from the detector; the efficiency becomes blocks per
        minute only once the runtime is positive. */
    method UpdateStatistics(now: int)
      requires Valid()
      modifies this
      ensures Valid()
      ensures statistics.runtime == if running && !paused then CDiv(now - startTime, 1000) else old(statistics.runtime)
      ensures statistics.playersDetected == |playerDetector.detectedPlayers|
      ensures statistics.runtime > 0 ==>
        statistics.efficiency * statistics.runtime as real == (statistics.blocksMined * 60) as real
      ensures statistics.runtime <= 0 ==> statistics.efficiency == old(statistics.efficiency)
      ensures statistics.blocksMined == old(statistics.blocksMined) && statistics.status == old(statistics.status)
      ensures statistics.isPaused == old(statistics.isPaused)
      ensures running == old(running) && paused == old(paused) && config == old(config)
      ensures startTime == old(startTime)
    {
      var stats := statistics;
      if running && !paused {
        stats := stats.(runtime := CDiv(now - startTime, 1000));
      }
      var pd := playerDetector;
      var count := pd.GetPlayerCount();
      stats := stats.(playersDetected := count);
      if stats.runtime > 0 {
        stats := stats.(efficiency := (stats.blocksMined * 60) as real / stats.runtime as real);
      }
      statistics := stats;
    }

    /** ApplyConfigToComponents: every component takes its settings from
        the configuration and keeps the rest of its state. */
    method ApplyConfigToComponents()
      requires bot.humanizer == humanizer && bot.playerDetector == playerDetector && bot.chatHandler == chatHandler
      modifies humanizer, playerDetector, chatHandler, bot
      ensures Applied()
      ensures humanizer.learnedPatterns == old(humanizer.learnedPatterns)
      ensures humanizer.fatigue == old(humanizer.fatigue) && humanizer.lastAction == old(humanizer.lastAction)
      ensures humanizer.reactionVariance == old(humanizer.reactionVariance)
      ensures playerDetector.detectedPlayers == old(playerDetector.detectedPlayers)
      ensures playerDetector.knownPlayerNames == old(playerDetector.knownPlayerNames)
      ensures playerDetector.responseRadius == old(playerDetector.responseRadius)
      ensures chatHandler.recentMessages == old(chatHandler.recentMessages)
      ensures chatHandler.responseTemplates == old(chatHandler.responseTemplates)
      ensures chatHandler.chatRegion == old(chatHandler.chatRegion)
      ensures bot.currentState == old(bot.currentState) && bot.Mining() == old(bot.Mining())
      ensures bot.Capture() == old(bot.Capture())
    {
      var c := config;
      var h, pd, ch, b := humanizer, playerDetector, chatHandler, bot;
      h.SetMouseSensitivity(c.mouseSensitivity);
      h.SetRotationSpeed(c.miningRotationSpeed);
      h.SetHumanizationLevel(c.humanizationLevel);
      h.SetReactionTime(c.reactionTime);
      pd.SetDetectionRadius(c.detectionRadius as real);
      ch.SetBotName(c.botUsername);
      ch.EnableResponses(c.chatResponses);
      b.SetMiningMode(c.miningMode);
      b.SetAutoSwitchTools(c.autoSwitchTools);
      b.SetAvoidBedrock(c.avoidBedrock);
      b.SetPauseOnPlayer(c.pauseOnPlayer);
      b.SetActionDelay(c.actionDelay);
    }

    /** UpdateConfig: a configuration failing validation is refused (the
        source throws) and nothing changes; a valid one replaces the
        configuration and is applied to every component. */
    method UpdateConfig(newConfig: AIConfig) returns (ok: bool)
      requires Valid()
      modifies this, humanizer, playerDetector, chatHandler, bot
      ensures Valid()
      ensures ok == ValidateConfig(newConfig)
      ensures !ok ==> config == old(config)
                      && unchanged(humanizer) && unchanged(playerDetector) && unchanged(chatHandler) && unchanged(bot)
      ensures ok ==> config == newConfig && Applied()
      ensures ok ==> humanizer.learnedPatterns == old(humanizer.learnedPatterns)
                     && playerDetector.detectedPlayers == old(playerDetector.detectedPlayers)
                     && chatHandler.recentMessages == old(chatHandler.recentMessages)
                     && bot.Mining() == old(bot.Mining())
      ensures running == old(running) && paused == old(paused) && statistics == old(statistics)
      ensures startTime == old(startTime)
    {
      if !ValidateConfig(newConfig) {
        return false;
      }
      config := newConfig;
      ApplyConfigToComponents();
      ok := true;
    }

    /** AddKnownPlayer: an absent name is appended to the configuration's
        list and handed to the detector; a present one changes nothing. A
        list without duplicates keeps none, and since the name is not
        validated, a valid configuration stays valid exactly when the new
        name follows the name rule. */
    method AddKnownPlayer(playerName: string)
      modifies this, playerDetector
      ensures playerName in old(config.knownPlayers) ==>
        config == old(config) && playerDetector.knownPlayerNames == old(playerDetector.knownPlayerNames)
      ensures playerName !in old(config.knownPlayers) ==>
        config == old(config).(knownPlayers := old(config.knownPlayers) + [playerName])
        && playerDetector.knownPlayerNames
           == if playerName in old(playerDetector.knownPlayerNames) then old(playerDetector.knownPlayerNames)
              else old(playerDetector.knownPlayerNames) + [playerName]
      ensures NoDuplicates(old(config.knownPlayers)) ==> NoDuplicates(config.knownPlayers)
      ensures ValidateConfig(old(config)) ==> (ValidateConfig(config) <==> ValidName(playerName) || playerName in old(config.knownPlayers))
      ensures playerDetector.detectedPlayers == old(playerDetector.detectedPlayers)
      ensures running == old(running) && paused == old(paused) && statistics == old(statistics)
      ensures startTime == old(startTime)
    {
      var names := config.knownPlayers;
      if FirstIndex(names, playerName).None? {
        config := config.(knownPlayers := names + [playerName]);
        var pd := playerDetector;
        pd.AddKnownPlayer(playerName);
        assert config.knownPlayers[|names|] == playerName;
      }
    }

    /** RemoveKnownPlayer: the first occurrence of a present name is erased
        from the configuration's list and from the detector's; an absent
        name changes nothing. A list without duplicates no longer holds the
        name. */
    method RemoveKnownPlayer(playerName: string)
      modifies this, playerDetector
      ensures config == old(config).(knownPlayers := RemoveFirst(old(config.knownPlayers), playerName))
      ensures playerDetector.knownPlayerNames
              == if playerName in old(config.knownPlayers)
                 then RemoveFirst(old(playerDetector.knownPlayerNames), playerName)
                 else old(playerDetector.knownPlayerNames)
      ensures NoDuplicates(old(config.knownPlayers)) ==>
        playerName !in config.knownPlayers && NoDuplicates(config.knownPlayers)
      ensures playerDetector.detectedPlayers == old(playerDetector.detectedPlayers)
      ensures running == old(running) && paused == old(paused) && statistics == old(statistics)
      ensures startTime == old(startTime)
    {
      var names := config.knownPlayers;
      var it := FirstIndex(names, playerName);
      if it.Some? {
        config := config.(knownPlayers := names[..it.value] + names[it.value + 1..]);
        var pd := playerDetector;
        pd.RemoveKnownPlayer(playerName);
      }
      if NoDuplicates(names) {
        RemoveFirstNoDuplicates(names, playerName);
      }
    }
  }
}
