// ChatHandler.cpp: recognising chat lines, the bounded message log, mention
// filters, response templates and the keystrokes that type a message.

module Chat {
  import opened Wrappers
  import opened CNumerics
  import opened Geometry
  import opened Text
  import opened Sequences

  /** ChatHandler::ChatMessage; the timestamp is a clock reading in ms. */
  datatype ChatMessage = ChatMessage(playerName: string, message: string, timestamp: int,
                                     isWhisper: bool, mentionsSelf: bool)

  /** The log keeps at most this many messages. */
  const MAX_RECENT_MESSAGES: nat := 100

  /** The window WasMentioned looks back over, in seconds. */
  const MENTION_WINDOW_S: int := 30

  /** Words that count as addressing the bot, after lower-casing. */
  const ADDRESSING_PATTERNS: seq<string> := ["bot", "ai", "hey", "hello", "hi"]

  const DEFAULT_TEMPLATES: seq<string> := [
    "Hello {player}!",
    "Hi there {player}!",
    "Hey {player}, how's it going?",
    "Nice to see you {player}!",
    "What's up {player}?",
    "Greetings {player}!",
    "Good to see you here {player}!",
    "Hello {player}, having fun mining?"
  ]

  const MINING_SUFFIX: string := " I'm just mining here."
  const AI_SUFFIX: string := " Yes, I'm an AI assistant."
  const HELP_SUFFIX: string := " I'm just mining, nothing special."

  /** Win32 virtual-key codes used when typing: 'T' opens the chat. */
  const VK_T: int := 0x54
  const VK_SPACE: int := 0x20
  const VK_RETURN: int := 0x0D

  /** A message mentions the bot when, ignoring ASCII case, it contains the
      bot's name or one of the addressing words. */
  predicate Mentions(message: string, botName: string)
  {
    var lower := ToLower(message);
    Contains(lower, ToLower(botName))
    || Contains(lower, "bot") || Contains(lower, "ai") || Contains(lower, "hey")
    || Contains(lower, "hello") || Contains(lower, "hi")
  }

  /** The age of a message in whole seconds, truncated as duration_cast does. */
  function AgeSeconds(m: ChatMessage, now: int): int
  {
    CDiv(now - m.timestamp, 1000)
  }

  predicate IsRecentMention(m: ChatMessage, seconds: int, now: int)
  {
    AgeSeconds(m, now) <= seconds && m.mentionsSelf
  }

  /** The messages of `s` that mention the bot and are at most `seconds`
      old, in log order. */
  function RecentMentions(s: seq<ChatMessage>, seconds: int, now: int): (r: seq<ChatMessage>)
    ensures |r| <= |s|
  {
    if s == [] then []
    else
      var rest := RecentMentions(s[..|s| - 1], seconds, now);
      if IsRecentMention(s[|s| - 1], seconds, now) then rest + [s[|s| - 1]] else rest
  }

  /** The filter keeps exactly the recent mentions. */
  lemma {:induction false} RecentMentionsMembers(s: seq<ChatMessage>, seconds: int, now: int)
    ensures forall m :: m in RecentMentions(s, seconds, now) <==> m in s && IsRecentMention(m, seconds, now)
  {
    if s != [] {
      RecentMentionsMembers(s[..|s| - 1], seconds, now);
      assert s == s[..|s| - 1] + [s[|s| - 1]];
    }
  }

  /** Widening the window never yields fewer mentions. */
  lemma {:induction false} WiderWindowKeepsMentions(s: seq<ChatMessage>, a: int, b: int, now: int)
    requires a <= b
    ensures |RecentMentions(s, a, now)| <= |RecentMentions(s, b, now)|
  {
    if s != [] {
      WiderWindowKeepsMentions(s[..|s| - 1], a, b, now);
    }
  }

  /** The cleaned player name and trimmed message a regex match yields. */
  function Clean(raw: (string, string)): (string, string)
  {
    (RemoveNonWord(raw.0), Trim(raw.1))
  }

  /** A match is recorded when the cleaned name and message are non-empty and
      the name is not the bot's own (case-sensitive). */
  predicate Accepts(raw: (string, string), botName: string)
  {
    var c := Clean(raw);
    c.0 != [] && c.1 != [] && c.0 != botName
  }

  /** The first pattern's match that is accepted, cleaned; None when no
      pattern yields an acceptable match. */
  function FirstAccepted(matches: seq<Option<(string, string)>>, botName: string): Option<(string, string)>
  {
    if matches == [] then None
    else if matches[0].Some? && Accepts(matches[0].value, botName) then
      Some(Clean(matches[0].value))
    else FirstAccepted(matches[1..], botName)
  }

  /** Nothing is recorded exactly when no pattern's match is accepted. */
  lemma {:induction false} FirstAcceptedNoneIff(matches: seq<Option<(string, string)>>, botName: string)
    ensures FirstAccepted(matches, botName).None?
        <==> forall i :: 0 <= i < |matches| && matches[i].Some? ==> !Accepts(matches[i].value, botName)
  {
    if matches != [] {
      FirstAcceptedNoneIff(matches[1..], botName);
      assert forall i :: 1 <= i < |matches| ==> matches[i] == matches[1..][i - 1];
    }
  }

  /** The recorded match is the one of the earliest pattern that is
      accepted: later patterns are not consulted. */
  lemma {:induction false} FirstAcceptedIsFirst(matches: seq<Option<(string, string)>>, botName: string, i: nat)
    requires i < |matches| && matches[i].Some? && Accepts(matches[i].value, botName)
    requires forall j :: 0 <= j < i && matches[j].Some? ==> !Accepts(matches[j].value, botName)
    ensures FirstAccepted(matches, botName) == Some(Clean(matches[i].value))
  {
    if i > 0 {
      var tail := matches[1..];
      assert tail[i - 1] == matches[i];
      forall j | 0 <= j < i - 1 && tail[j].Some?
        ensures !Accepts(tail[j].value, botName)
      {
        assert tail[j] == matches[j + 1];
      }
      FirstAcceptedIsFirst(tail, botName, i - 1);
    }
  }

  /** A recorded name is made of word characters only and differs from the
      bot's name; a recorded message is non-empty and has no surrounding
      white space. */
  lemma AcceptedIsClean(raw: (string, string), botName: string)
    requires Accepts(raw, botName)
    ensures var (name, message) := Clean(raw);
            name != [] && AllWordChars(name) && name != botName
            && message != [] && !IsSpace(message[0]) && !IsSpace(message[|message| - 1])
  {
    var t := TrimStart(raw.1);
    var m := TrimEnd(t);
    assert m == Clean(raw).1;
    assert m[0] == t[0];
  }

  /** Appending to the log and dropping the oldest entry once it holds more
      than 100. */
  function Bounded(s: seq<ChatMessage>): (r: seq<ChatMessage>)
    ensures |s| <= MAX_RECENT_MESSAGES ==> r == s
    ensures |s| > MAX_RECENT_MESSAGES ==> r == s[1..]
  {
    if |s| > MAX_RECENT_MESSAGES then s[1..] else s
  }

  /** The log after a parse that recorded `accepted` (or nothing). */
  function Record(log: seq<ChatMessage>, accepted: Option<(string, string)>, now: int, botName: string): seq<ChatMessage>
  {
    match accepted
    case None => log
    case Some((name, message)) =>
      Bounded(log + [ChatMessage(name, message, now, false, Mentions(message, botName))])
  }

  /** A full log keeps its size: the new message goes in last and the oldest
      one goes out; everything else keeps its order. */
  lemma RecordOnFullLog(log: seq<ChatMessage>, name: string, message: string, now: int, botName: string)
    requires |log| == MAX_RECENT_MESSAGES
    ensures var r := Record(log, Some((name, message)), now, botName);
            |r| == MAX_RECENT_MESSAGES && r[..|r| - 1] == log[1..]
            && r[|r| - 1] == ChatMessage(name, message, now, false, Mentions(message, botName))
  {
  }

  /** The key a character is typed with: space, or the upper-case letter key;
      None for every other character, which is skipped. */
  function KeyCode(c: char): (r: Option<int>)
    ensures r.Some? <==> c == ' ' || 'A' <= c <= 'Z' || 'a' <= c <= 'z'
    ensures r.Some? ==> r.value == VK_SPACE || 'A' as int <= r.value <= 'Z' as int
  {
    if c == ' ' then Some(VK_SPACE)
    else if 'A' <= c <= 'Z' then Some(c as int)
    else if 'a' <= c <= 'z' then Some(c as int - 'a' as int + 'A' as int)
    else None
  }

  /** The keys typed for one character: none or one. */
  function CharKeys(c: char): seq<int>
  {
    match KeyCode(c)
    case None => []
    case Some(k) => [k]
  }

  /** The keys typed for a text, in order. */
  function KeysFor(s: string): (r: seq<int>)
    ensures |r| <= |s|
  {
    if s == [] then [] else KeysFor(s[..|s| - 1]) + CharKeys(s[|s| - 1])
  }

  lemma {:induction false} KeysForAppend(a: string, b: string)
    ensures KeysFor(a + b) == KeysFor(a) + KeysFor(b)
    decreases |b|
  {
    if b != [] {
      assert (a + b)[..|a + b| - 1] == a + b[..|b| - 1];
      assert (a + b)[|a + b| - 1] == b[|b| - 1];
      KeysForAppend(a, b[..|b| - 1]);
    } else {
      assert a + b == a;
    }
  }

  /** Every typed key is the space bar or a letter key. */
  lemma {:induction false} KeysAreLettersOrSpace(s: string)
    ensures forall i :: 0 <= i < |KeysFor(s)| ==>
      KeysFor(s)[i] == VK_SPACE || 'A' as int <= KeysFor(s)[i] <= 'Z' as int
  {
    if s != [] {
      KeysAreLettersOrSpace(s[..|s| - 1]);
    }
  }

  /** Typing ignores case. */
  lemma {:induction false} KeysIgnoreCase(s: string)
    ensures KeysFor(ToLower(s)) == KeysFor(s)
  {
    if s != [] {
      var n := |s|;
      assert ToLower(s)[..n - 1] == ToLower(s[..n - 1]);
      KeysIgnoreCase(s[..n - 1]);
    }
  }

  /** The whisper prefix "/msg " loses its slash: only M, S, G and a space
      are typed. */
  lemma WhisperPrefixKeys()
    ensures KeysFor("/msg ") == ['M' as int, 'S' as int, 'G' as int, VK_SPACE]
  {
    assert "/msg "[..4] == "/msg";
    assert "/msg"[..3] == "/ms";
    assert "/ms"[..2] == "/m";
    assert "/m"[..1] == "/";
    assert "/"[..0] == [];
  }

  /** The keys of a whisper command: the prefix without its slash, the
      name's keys, a space and the message's keys. */
  lemma WhisperCommandKeys(name: string, message: string)
    ensures KeysFor("/msg " + name + " " + message)
         == ['M' as int, 'S' as int, 'G' as int, VK_SPACE] + KeysFor(name) + [VK_SPACE] + KeysFor(message)
  {
    var a := "/msg " + name;
    var b := a + " ";
    KeysForAppend(b, message);
    KeysForAppend(a, " ");
    KeysForAppend("/msg ", name);
    WhisperPrefixKeys();
    assert KeysFor(" ") == [VK_SPACE] by {
      assert " "[..0] == [];
    }
  }

  /** The chat handler: the log of recently read messages and the settings
      used to answer them. */
  class ChatHandler {
    var recentMessages: seq<ChatMessage>
    var botName: string
    var responseTemplates: seq<string>
    var chatRegion: Rect
    var enabledResponses: bool

    ghost predicate Valid()
      reads this
    {
      |recentMessages| <= MAX_RECENT_MESSAGES
    }

    constructor(botPlayerName: string)
      ensures Valid()
      ensures botName == botPlayerName && recentMessages == []
      ensures chatRegion == Rect(2, 2, 400, 200)
      ensures responseTemplates == DEFAULT_TEMPLATES && enabledResponses
    {
      botName := botPlayerName;
      recentMessages := [];
      chatRegion := Rect(2, 2, 400, 200);
      responseTemplates := DEFAULT_TEMPLATES;
      enabledResponses := true;
    }

    /** CheckIfMentioned: a case-insensitive search for the bot's name, then
        for each addressing word in turn. */
    method CheckIfMentioned(message: string) returns (mentioned: bool)
      ensures mentioned <==> Mentions(message, botName)
    {
      var lowerMessage := ToLower(message);
      var lowerBotName := ToLower(botName);
      FindIffContains(lowerMessage, lowerBotName);
      if FindFrom(lowerMessage, lowerBotName, 0).Some? {
        return true;
      }
      var i := 0;
      while i < |ADDRESSING_PATTERNS|
        invariant 0 <= i <= |ADDRESSING_PATTERNS|
        invariant forall j :: 0 <= j < i ==> !Contains(lowerMessage, ADDRESSING_PATTERNS[j])
      {
        FindIffContains(lowerMessage, ADDRESSING_PATTERNS[i]);
        if FindFrom(lowerMessage, ADDRESSING_PATTERNS[i], 0).Some? {
          return true;
        }
        i := i + 1;
      }
      assert !Contains(lowerMessage, ADDRESSING_PATTERNS[0]);
      assert !Contains(lowerMessage, ADDRESSING_PATTERNS[1]);
      assert !Contains(lowerMessage, ADDRESSING_PATTERNS[2]);
      assert !Contains(lowerMessage, ADDRESSING_PATTERNS[3]);
      assert !Contains(lowerMessage, ADDRESSING_PATTERNS[4]);
      return false;
    }

    /** ParseChatMessage at clock reading `now`. `matches[i]` is what the
        i-th chat pattern's regex_search captured as (name, message), if it
        matched. The first match that survives cleaning and acceptance is
        logged, with the oldest entry dropped beyond 100; at most one message
        is logged per call. */
    method ParseChatMessage(rawText: string, matches: seq<Option<(string, string)>>, now: int)
      requires Valid()
      modifies this
      ensures Valid()
      ensures rawText == [] ==> recentMessages == old(recentMessages)
      ensures rawText != [] ==> recentMessages == Record(old(recentMessages), FirstAccepted(matches, botName), now, botName)
      ensures |recentMessages| <= |old(recentMessages)| + 1
      ensures botName == old(botName) && responseTemplates == old(responseTemplates)
      ensures chatRegion == old(chatRegion) && enabledResponses == old(enabledResponses)
    {
      if rawText == [] {
        return;
      }
      var i := 0;
      while i < |matches|
        invariant 0 <= i <= |matches|
        invariant FirstAccepted(matches, botName) == FirstAccepted(matches[i..], botName)
      {
        ghost var rest := matches[i..];
        assert rest[0] == matches[i] && rest[1..] == matches[i + 1..];
        if matches[i].Some? {
          var playerName := RemoveNonWord(matches[i].value.0);
          var message := Trim(matches[i].value.1);
          if playerName != [] && message != [] && playerName != botName {
            assert Accepts(matches[i].value, botName);
            assert FirstAccepted(rest, botName) == Some((playerName, message));
            var mentions := CheckIfMentioned(message);
            var log := recentMessages + [ChatMessage(playerName, message, now, false, mentions)];
            if |log| > MAX_RECENT_MESSAGES {
              log := log[1..];
            }
            recentMessages := log;
            return;
          }
          assert !Accepts(matches[i].value, botName);
        }
        assert FirstAccepted(rest, botName) == FirstAccepted(matches[i + 1..], botName);
        i := i + 1;
      }
    }

    /** WasMentioned at clock reading `now`: some logged message mentioning
        the bot is at most 30 seconds old. */
    method WasMentioned(now: int) returns (mentioned: bool)
      ensures mentioned <==> RecentMentions(recentMessages, MENTION_WINDOW_S, now) != []
      ensures mentioned <==> exists m :: m in recentMessages && IsRecentMention(m, MENTION_WINDOW_S, now)
    {
      RecentMentionsMembers(recentMessages, MENTION_WINDOW_S, now);
      var i := 0;
      while i < |recentMessages|
        invariant 0 <= i <= |recentMessages|
        invariant RecentMentions(recentMessages[..i], MENTION_WINDOW_S, now) == []
      {
        var message := recentMessages[i];
        assert recentMessages[..i + 1][..i] == recentMessages[..i];
        if AgeSeconds(message, now) <= MENTION_WINDOW_S && message.mentionsSelf {
          assert message in RecentMentions(recentMessages, MENTION_WINDOW_S, now);
          return true;
        }
        i := i + 1;
      }
      assert recentMessages[..i] == recentMessages;
      return false;
    }

    /** GetRecentMentions(seconds) at clock reading `now`: the logged
        messages mentioning the bot and at most `seconds` old, in log order. */
    method GetRecentMentions(seconds: int, now: int) returns (mentions: seq<ChatMessage>)
      ensures mentions == RecentMentions(recentMessages, seconds, now)
      ensures forall m :: m in mentions <==> m in recentMessages && IsRecentMention(m, seconds, now)
    {
      mentions := [];
      var i := 0;
      while i < |recentMessages|
        invariant 0 <= i <= |recentMessages|
        invariant mentions == RecentMentions(recentMessages[..i], seconds, now)
      {
        var message := recentMessages[i];
        assert recentMessages[..i + 1][..i] == recentMessages[..i];
        if AgeSeconds(message, now) <= seconds && message.mentionsSelf {
          mentions := mentions + [message];
        }
        i := i + 1;
      }
      assert recentMessages[..i] == recentMessages;
      RecentMentionsMembers(recentMessages, seconds, now);
    }

    /** The sentence added for the context of a message, by priority:
        mining, then bot/ai, then help. */
    static function ContextSuffix(message: string): (r: string)
      ensures var lower := ToLower(message);
        && (Contains(lower, "mining") ==> r == MINING_SUFFIX)
        && (!Contains(lower, "mining") && (Contains(lower, "bot") || Contains(lower, "ai")) ==> r == AI_SUFFIX)
        && ((!Contains(lower, "mining") && !Contains(lower, "bot") && !Contains(lower, "ai")
              && Contains(lower, "help")) ==> r == HELP_SUFFIX)
        && ((!Contains(lower, "mining") && !Contains(lower, "bot") && !Contains(lower, "ai")
              && !Contains(lower, "help")) ==> r == [])
    {
      var lower := ToLower(message);
      FindIffContains(lower, "mining");
      FindIffContains(lower, "bot");
      FindIffContains(lower, "ai");
      FindIffContains(lower, "help");
      if FindFrom(lower, "mining", 0).Some? then MINING_SUFFIX
      else if FindFrom(lower, "bot", 0).Some? || FindFrom(lower, "ai", 0).Some? then AI_SUFFIX
      else if FindFrom(lower, "help", 0).Some? then HELP_SUFFIX
      else []
    }

    /** GenerateResponse with `choice` the random template index: "Hello!"
        without templates; otherwise the chosen template with its first
        "{player}" replaced by the sender's name, followed by the context
        sentence. */
    function GenerateResponse(message: ChatMessage, choice: nat): (r: string)
      reads this
      requires responseTemplates == [] || choice < |responseTemplates|
      ensures responseTemplates == [] ==> r == "Hello!"
      ensures responseTemplates != [] ==>
        r == ReplaceFirst(responseTemplates[choice], "{player}", message.playerName) + ContextSuffix(message.message)
    {
      if responseTemplates == [] then "Hello!"
      else
        var response := responseTemplates[choice];
        ReplaceFirst(response, "{player}", message.playerName) + ContextSuffix(message.message)
    }

    /** SendChatMessage: the keys pressed, in order. Nothing for an empty
        message; otherwise T, the key of each space or letter (upper-cased),
        and Enter. */
    method SendChatMessage(message: string) returns (keys: seq<int>)
      ensures message == [] ==> keys == []
      ensures message != [] ==> keys == [VK_T] + KeysFor(message) + [VK_RETURN]
    {
      if message == [] {
        return [];
      }
      keys := [VK_T];
      var i := 0;
      while i < |message|
        invariant 0 <= i <= |message|
        invariant keys == [VK_T] + KeysFor(message[..i])
      {
        var c := message[i];
        assert message[..i + 1][..i] == message[..i];
        if c == ' ' {
          keys := keys + [VK_SPACE];
        } else if 'A' <= c <= 'Z' {
          keys := keys + [c as int];
        } else if 'a' <= c <= 'z' {
          keys := keys + [c as int - 'a' as int + 'A' as int];
        } else {
          i := i + 1;
          continue;
        }
        i := i + 1;
      }
      assert message[..i] == message;
      keys := keys + [VK_RETURN];
    }

    /** SendWhisper: nothing when the name or the message is empty; otherwise
        "/msg <name> <message>" is typed, and since the slash has no key the
        keys are those of "msg <name> <message>". */
    method SendWhisper(playerName: string, message: string) returns (keys: seq<int>)
      ensures playerName == [] || message == [] ==> keys == []
      ensures playerName != [] && message != [] ==>
        keys == [VK_T] + ['M' as int, 'S' as int, 'G' as int, VK_SPACE] + KeysFor(playerName)
                + [VK_SPACE] + KeysFor(message) + [VK_RETURN]
    {
      if playerName == [] || message == [] {
        return [];
      }
      var whisperCommand := "/msg " + playerName + " " + message;
      keys := SendChatMessage(whisperCommand);
      WhisperCommandKeys(playerName, message);
      var msg, name := ['M' as int, 'S' as int, 'G' as int, VK_SPACE], KeysFor(playerName);
      AppendAssoc([VK_T], msg, name);
      AppendAssoc([VK_T], msg + name, [VK_SPACE]);
      AppendAssoc([VK_T], msg + name + [VK_SPACE], KeysFor(message));
    }

    /** ProcessChatRegion at clock reading `now`, with `chatText` what the
        text recognition reads in the chat area and `matches` the pattern
        captures for that text. Nothing happens for an empty frame or with
        responses disabled. A chat area reaching past the frame is first
        shrunk to (2, 2, min(400, cols-4), min(200, rows-4)); an area still
        outside the frame makes the crop fail (the result is false and the
        log is unchanged). */
    method ProcessChatRegion(gameFrame: Frame, chatText: string, matches: seq<Option<(string, string)>>, now: int)
      returns (ok: bool)
      requires Valid()
      modifies this
      ensures Valid()
      ensures IsEmpty(gameFrame) || !old(enabledResponses) ==>
        ok && recentMessages == old(recentMessages) && chatRegion == old(chatRegion)
      ensures !IsEmpty(gameFrame) && old(enabledResponses) ==>
        chatRegion == FitChatRegion(old(chatRegion), gameFrame)
      ensures ok && !IsEmpty(gameFrame) && old(enabledResponses) && chatText != [] ==>
        recentMessages == Record(old(recentMessages), FirstAccepted(matches, botName), now, botName)
      ensures !ok ==> !RegionInside(chatRegion, gameFrame) && recentMessages == old(recentMessages)
      ensures ok && chatText == [] ==> recentMessages == old(recentMessages)
      ensures botName == old(botName) && responseTemplates == old(responseTemplates)
      ensures enabledResponses == old(enabledResponses)
    {
      if IsEmpty(gameFrame) || !enabledResponses {
        return true;
      }
      if chatRegion.x + chatRegion.width > gameFrame.cols
         || chatRegion.y + chatRegion.height > gameFrame.rows {
        chatRegion := Rect(2, 2, Min(400, gameFrame.cols - 4), Min(200, gameFrame.rows - 4));
      }
      if !RegionInside(chatRegion, gameFrame) {
        return false;
      }
      ok := true;
      if chatText != [] {
        ParseChatMessage(chatText, matches, now);
      }
    }

    method SetBotName(name: string)
      modifies this
      ensures botName == name
      ensures recentMessages == old(recentMessages) && responseTemplates == old(responseTemplates)
      ensures chatRegion == old(chatRegion) && enabledResponses == old(enabledResponses)
    {
      botName := name;
    }

    method EnableResponses(enabled: bool)
      modifies this
      ensures enabledResponses == enabled
      ensures recentMessages == old(recentMessages) && responseTemplates == old(responseTemplates)
      ensures chatRegion == old(chatRegion) && botName == old(botName)
    {
      enabledResponses := enabled;
    }
  }

  /** cv::Mat's region operator accepts a rectangle only when it lies within
      the frame. */
  predicate RegionInside(r: Rect, f: Frame)
  {
    0 <= r.x && 0 <= r.width && r.x + r.width <= f.cols
    && 0 <= r.y && 0 <= r.height && r.y + r.height <= f.rows
  }

  /** The chat area after the bounds check of ProcessChatRegion. */
  function FitChatRegion(r: Rect, f: Frame): (fitted: Rect)
    ensures r.x + r.width <= f.cols && r.y + r.height <= f.rows ==> fitted == r
  {
    if r.x + r.width > f.cols || r.y + r.height > f.rows then
      Rect(2, 2, Min(400, f.cols - 4), Min(200, f.rows - 4))
    else r
  }

  /** On a frame of at least 4 x 4 pixels a shrunk chat area lies inside it. */
  lemma FittedRegionInside(r: Rect, f: Frame)
    requires f.cols >= 4 && f.rows >= 4
    requires r.x + r.width > f.cols || r.y + r.height > f.rows
    ensures RegionInside(FitChatRegion(r, f), f)
  {
  }

  /** Example: the first template addressed to "Steve" reads "Hello Steve!". */
  lemma GreetingExample()
    ensures ReplaceFirst(DEFAULT_TEMPLATES[0], "{player}", "Steve") == "Hello Steve!"
  {
    assert DEFAULT_TEMPLATES[0] == "Hello {player}!";
    FillGreeting("Hello {player}!");
  }

  lemma FillGreeting(t: string)
    requires t == "Hello {player}!"
    ensures ReplaceFirst(t, "{player}", "Steve") == "Hello Steve!"
  {
    assert t[6..14] == "{player}";
    forall j | 0 <= j < 6 ensures !IsAt(t, "{player}", j) {
      assert t[j..j + 8][0] == t[j] != '{';
    }
    ReplaceFirstSplits(t, "{player}", "Steve", 6);
    assert t[..6] == "Hello ";
    assert t[14..] == "!";
  }

  /** Example: a plain "hi" gets no context sentence. */
  lemma PlainGreetingHasNoSuffix()
    ensures ChatHandler.ContextSuffix("hi") == []
  {
    var lower := ToLower("hi");
    assert lower == "hi";
    assert !Contains(lower, "ai") by {
      forall i | 0 <= i <= |lower| ensures !IsAt(lower, "ai", i) {
        if i == 0 { assert lower[0..2][0] == 'h'; }
      }
    }
  }
}
