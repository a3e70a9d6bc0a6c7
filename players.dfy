// PlayerDetector.cpp: the list of players seen in the last frame, the radius
// queries over it and the known-player list.

module Players {
  import opened Wrappers
  import opened Sequences
  import opened CNumerics
  import opened Geometry

  /** PlayerDetector::Player; `lastSeen` is a clock reading in ms. The skin
      signature is never set by the detector and is left out. */
  datatype Player = Player(name: string, position: Point, lastPosition: Point,
                           distance: real, lastSeen: int, isMoving: bool)

  const DEFAULT_DETECTION_RADIUS: real := 16.0
  const DEFAULT_RESPONSE_RADIUS: real := 8.0

  /** Two detections closer than this (in pixels) are the same player. */
  const SAME_PLAYER_DISTANCE: real := 50.0

  /** A player that moved more than this (in pixels) is moving. */
  const MOVING_DISTANCE: real := 5.0

  /** The frame centre the distance is measured from, `cols/2, rows/2`. */
  function FrameCentre(f: Frame): Point
  {
    Point(CDiv(f.cols, 2) as real, CDiv(f.rows, 2) as real)
  }

  /** IsValidPlayerDetection: the rectangle lies strictly inside the frame
      (touching the right or bottom edge fails) and the region is textured
      enough; `textured` is the outcome of the colour deviation test. */
  predicate IsValidPlayerDetection(region: Rect, frame: Frame, textured: bool)
    ensures IsValidPlayerDetection(region, frame, textured) ==> textured
    ensures IsValidPlayerDetection(region, frame, textured) && region.width >= 0 && region.height >= 0 ==>
              !IsEmpty(frame) && 0.0 <= Centre(region).x < frame.cols as real && 0.0 <= Centre(region).y < frame.rows as real
  {
    !(region.x + region.width >= frame.cols || region.y + region.height >= frame.rows
      || region.x < 0 || region.y < 0)
    && textured
  }

  /** The nameplate area above a player: 20 pixels wider on each side, 40
      pixels higher (clamped at the top) and 30 pixels tall. */
  function NameplateRegion(playerRegion: Rect): Rect
  {
    Rect(playerRegion.x - 20, Max(0, playerRegion.y - 40), playerRegion.width + 40, 30)
  }

  /** ExtractPlayerName: "Unknown" when the nameplate area reaches the frame
      edge; otherwise the first known name (text recognition stands in for
      it), or "Player" when no name is known. */
  function ExtractPlayerName(playerRegion: Rect, frame: Frame, knownPlayerNames: seq<string>): (name: string)
    ensures name == "Unknown" || name == "Player" || name in knownPlayerNames
    ensures (playerRegion.x < 20 || playerRegion.x + playerRegion.width + 20 >= frame.cols
             || Max(0, playerRegion.y - 40) + 30 >= frame.rows) ==> name == "Unknown"
    ensures !(playerRegion.x < 20 || playerRegion.x + playerRegion.width + 20 >= frame.cols
              || Max(0, playerRegion.y - 40) + 30 >= frame.rows) ==>
            name == (if knownPlayerNames == [] then "Player" else knownPlayerNames[0])
  {
    var plate := NameplateRegion(playerRegion);
    if plate.y + plate.height >= frame.rows || plate.x + plate.width >= frame.cols
       || plate.x < 0 || plate.y < 0 then "Unknown"
    else if knownPlayerNames != [] then knownPlayerNames[0]
    else "Player"
  }

  /** The player recorded for a valid rectangle, before movement tracking. */
  function NewPlayer(region: Rect, frame: Frame, knownPlayerNames: seq<string>, now: int,
                     sqrt: real -> real): Player
    requires IsSqrt(sqrt)
  {
    var position := Centre(region);
    Player(ExtractPlayerName(region, frame, knownPlayerNames), position, Point(0.0, 0.0),
           Norm(Minus(position, FrameCentre(frame)), sqrt), now, false)
  }

  /** An earlier entry is taken for the same player when the names agree or
      the positions are less than 50 pixels apart. */
  predicate SamePlayer(earlier: Player, p: Player, sqrt: real -> real)
    requires IsSqrt(sqrt)
  {
    p.name == earlier.name || Norm(Minus(p.position, earlier.position), sqrt) < SAME_PLAYER_DISTANCE
  }

  /** The first entry at or after `from` taken for the same player as `p`. */
  function FirstSameFrom(list: seq<Player>, p: Player, sqrt: real -> real, from: nat): (r: Option<nat>)
    requires IsSqrt(sqrt)
    decreases |list| - from
    ensures r.Some? ==> from <= r.value < |list| && SamePlayer(list[r.value], p, sqrt)
    ensures r.Some? ==> forall k :: from <= k < r.value ==> !SamePlayer(list[k], p, sqrt)
    ensures r.None? ==> forall k :: from <= k < |list| ==> !SamePlayer(list[k], p, sqrt)
  {
    if from >= |list| then None
    else if SamePlayer(list[from], p, sqrt) then Some(from)
    else FirstSameFrom(list, p, sqrt, from + 1)
  }

  /** One step of UpdateDetection: the new player is appended; when an
      earlier entry is the same player, that entry's last position becomes
      its position, and the new player is moving when it is more than 5
      pixels from that entry's previous last position. */
  function Track(list: seq<Player>, p: Player, sqrt: real -> real): seq<Player>
    requires IsSqrt(sqrt)
  {
    match FirstSameFrom(list, p, sqrt, 0)
    case None => list + [p]
    case Some(j) =>
      list[j := list[j].(lastPosition := list[j].position)]
      + [p.(isMoving := Norm(Minus(p.position, list[j].lastPosition), sqrt) > MOVING_DISTANCE)]
  }

  /** The detections of one frame: every valid rectangle, in order, tracked
      against the ones before it. */
  function Detections(rects: seq<Rect>, textured: seq<bool>, frame: Frame, knownPlayerNames: seq<string>,
                      now: int, sqrt: real -> real): seq<Player>
    requires |rects| == |textured| && IsSqrt(sqrt)
  {
    if rects == [] then []
    else
      var n := |rects| - 1;
      var prev := Detections(rects[..n], textured[..n], frame, knownPlayerNames, now, sqrt);
      if IsValidPlayerDetection(rects[n], frame, textured[n]) then
        Track(prev, NewPlayer(rects[n], frame, knownPlayerNames, now, sqrt), sqrt)
      else prev
  }

  /** The rectangles that pass validation, in order. */
  function ValidRects(rects: seq<Rect>, textured: seq<bool>, frame: Frame): (r: seq<Rect>)
    requires |rects| == |textured|
    ensures |r| <= |rects|
  {
    if rects == [] then []
    else
      var n := |rects| - 1;
      var prev := ValidRects(rects[..n], textured[..n], frame);
      if IsValidPlayerDetection(rects[n], frame, textured[n]) then prev + [rects[n]] else prev
  }

  /** A rectangle is kept exactly when some position holds it and passes
      validation there. */
  lemma {:induction false} ValidRectsMembers(rects: seq<Rect>, textured: seq<bool>, frame: Frame)
    requires |rects| == |textured|
    ensures forall r :: r in ValidRects(rects, textured, frame) <==>
              exists i :: 0 <= i < |rects| && rects[i] == r && IsValidPlayerDetection(r, frame, textured[i])
  {
    if rects != [] {
      var n := |rects| - 1;
      ValidRectsMembers(rects[..n], textured[..n], frame);
      forall r | r in ValidRects(rects, textured, frame)
        ensures exists i :: 0 <= i < |rects| && rects[i] == r && IsValidPlayerDetection(r, frame, textured[i])
      {
        if r in ValidRects(rects[..n], textured[..n], frame) {
          var i :| 0 <= i < n && rects[..n][i] == r && IsValidPlayerDetection(r, frame, textured[..n][i]);
          assert rects[i] == r && textured[i] == textured[..n][i];
        } else {
          assert rects[n] == r && IsValidPlayerDetection(r, frame, textured[n]);
        }
      }
      forall r | exists i :: 0 <= i < |rects| && rects[i] == r && IsValidPlayerDetection(r, frame, textured[i])
        ensures r in ValidRects(rects, textured, frame)
      {
        var i :| 0 <= i < |rects| && rects[i] == r && IsValidPlayerDetection(r, frame, textured[i]);
        if i < n {
          assert rects[..n][i] == r && textured[..n][i] == textured[i];
        }
      }
    }
  }

  /** Validation keeps order: the survivors of two runs of detections are
      the survivors of the first followed by those of the second. */
  lemma {:induction false} ValidRectsAppend(a: seq<Rect>, ta: seq<bool>, b: seq<Rect>, tb: seq<bool>, frame: Frame)
    requires |a| == |ta| && |b| == |tb|
    ensures ValidRects(a + b, ta + tb, frame) == ValidRects(a, ta, frame) + ValidRects(b, tb, frame)
    decreases |b|
  {
    if b == [] {
      assert a + b == a && ta + tb == ta;
    } else {
      var n := |b| - 1;
      ValidRectsAppend(a, ta, b[..n], tb[..n], frame);
      assert (a + b)[..|a| + n] == a + b[..n];
      assert (ta + tb)[..|a| + n] == ta + tb[..n];
      AppendAssoc(ValidRects(a, ta, frame), ValidRects(b[..n], tb[..n], frame), [b[n]]);
    }
  }

  /** Tracking changes only the last position of an earlier entry and
      appends the new player with its own centre, name and distance. */
  lemma TrackKeeps(list: seq<Player>, p: Player, sqrt: real -> real)
    requires IsSqrt(sqrt)
    ensures var r := Track(list, p, sqrt);
      |r| == |list| + 1
      && (forall k :: 0 <= k < |list| ==>
            r[k].name == list[k].name && r[k].position == list[k].position
            && r[k].distance == list[k].distance && r[k].lastSeen == list[k].lastSeen
            && r[k].isMoving == list[k].isMoving)
      && r[|list|].(isMoving := p.isMoving) == p
  {
  }

  /** After UpdateDetection the list holds one player per valid rectangle,
      in order, placed at its centre, named from its nameplate, measured
      from the frame centre and stamped with the update time. */
  lemma {:induction false} DetectionsFollowValidRects(rects: seq<Rect>, textured: seq<bool>, frame: Frame,
                                                      knownPlayerNames: seq<string>, now: int, sqrt: real -> real)
    requires |rects| == |textured| && IsSqrt(sqrt)
    ensures var d := Detections(rects, textured, frame, knownPlayerNames, now, sqrt);
      var v := ValidRects(rects, textured, frame);
      |d| == |v|
      && forall k :: 0 <= k < |d| ==>
           d[k].position == Centre(v[k])
           && d[k].name == ExtractPlayerName(v[k], frame, knownPlayerNames)
           && d[k].distance == Norm(Minus(Centre(v[k]), FrameCentre(frame)), sqrt)
           && d[k].lastSeen == now
  {
    if rects != [] {
      var n := |rects| - 1;
      DetectionsFollowValidRects(rects[..n], textured[..n], frame, knownPlayerNames, now, sqrt);
      var prev := Detections(rects[..n], textured[..n], frame, knownPlayerNames, now, sqrt);
      if IsValidPlayerDetection(rects[n], frame, textured[n]) {
        TrackKeeps(prev, NewPlayer(rects[n], frame, knownPlayerNames, now, sqrt), sqrt);
      }
    }
  }

  /** The first player of a frame is never reported as moving: the list is
      cleared before tracking, so it has nothing to be compared with. */
  lemma {:induction false} FirstDetectionNotMoving(rects: seq<Rect>, textured: seq<bool>, frame: Frame,
                                                   knownPlayerNames: seq<string>, now: int, sqrt: real -> real)
    requires |rects| == |textured| && IsSqrt(sqrt)
    requires Detections(rects, textured, frame, knownPlayerNames, now, sqrt) != []
    ensures !Detections(rects, textured, frame, knownPlayerNames, now, sqrt)[0].isMoving
  {
    var n := |rects| - 1;
    var prev := Detections(rects[..n], textured[..n], frame, knownPlayerNames, now, sqrt);
    if IsValidPlayerDetection(rects[n], frame, textured[n]) {
      TrackKeeps(prev, NewPlayer(rects[n], frame, knownPlayerNames, now, sqrt), sqrt);
      if prev != [] {
        FirstDetectionNotMoving(rects[..n], textured[..n], frame, knownPlayerNames, now, sqrt);
      }
    } else {
      FirstDetectionNotMoving(rects[..n], textured[..n], frame, knownPlayerNames, now, sqrt);
    }
  }

  /** The players at most `radius` away, in order. */
  function Within(players: seq<Player>, radius: real): (r: seq<Player>)
    ensures |r| <= |players|
  {
    if players == [] then []
    else
      var n := |players| - 1;
      var prev := Within(players[..n], radius);
      if players[n].distance <= radius then prev + [players[n]] else prev
  }

  lemma {:induction false} WithinMembers(players: seq<Player>, radius: real)
    ensures forall p :: p in Within(players, radius) <==> p in players && p.distance <= radius
  {
    if players != [] {
      var n := |players| - 1;
      WithinMembers(players[..n], radius);
      assert players == players[..n] + [players[n]];
    }
  }

  /** Some player is at most `radius` away and, unless `playerName` is
      empty, has that name. */
  predicate AnyNearby(players: seq<Player>, playerName: string, radius: real)
  {
    exists k :: 0 <= k < |players| && players[k].distance <= radius
                && (playerName == [] || players[k].name == playerName)
  }

  /** The first index holding `x`, as std::find. */
  function FirstIndex<T(==)>(s: seq<T>, x: T): (r: Option<nat>)
    ensures r.Some? ==> r.value < |s| && s[r.value] == x && x !in s[..r.value]
    ensures r.None? <==> x !in s
  {
    if s == [] then None
    else if s[0] == x then Some(0)
    else
      match FirstIndex(s[1..], x)
      case None => None
      case Some(i) =>
        assert s[..i + 1] == [s[0]] + s[1..][..i];
        Some(i + 1)
  }

  predicate NoDuplicates<T(==)>(s: seq<T>)
  {
    forall i, j :: 0 <= i < j < |s| ==> s[i] != s[j]
  }

  /** The non-empty lines, in order. */
  function NonEmptyLines(lines: seq<string>): (r: seq<string>)
    ensures forall k :: 0 <= k < |r| ==> r[k] != [] && r[k] in lines
  {
    if lines == [] then []
    else
      var n := |lines| - 1;
      var prev := NonEmptyLines(lines[..n]);
      assert forall s :: s in lines[..n] ==> s in lines;
      if lines[n] != [] then prev + [lines[n]] else prev
  }

  class PlayerDetector {
    var detectedPlayers: seq<Player>
    var knownPlayerNames: seq<string>
    var detectionRadius: real
    var responseRadius: real

    /** The constructor with `fileLines` the lines of the known-players
        file: every non-empty line is a known name. */
    constructor(fileLines: seq<string>)
      ensures knownPlayerNames == NonEmptyLines(fileLines) && detectedPlayers == []
      ensures detectionRadius == DEFAULT_DETECTION_RADIUS && responseRadius == DEFAULT_RESPONSE_RADIUS
    {
      detectedPlayers := [];
      detectionRadius := DEFAULT_DETECTION_RADIUS;
      responseRadius := DEFAULT_RESPONSE_RADIUS;
      var names: seq<string> := [];
      var i := 0;
      while i < |fileLines|
        invariant 0 <= i <= |fileLines|
        invariant names == NonEmptyLines(fileLines[..i])
      {
        assert fileLines[..i + 1][..i] == fileLines[..i];
        if fileLines[i] != [] {
          names := names + [fileLines[i]];
        }
        i := i + 1;
      }
      assert fileLines[..i] == fileLines;
      knownPlayerNames := names;
    }

    /** UpdateDetection at clock reading `now`. `rects` are the silhouettes
        the detectors found and `textured[i]` the colour deviation test of
        `rects[i]`. An empty frame changes nothing; otherwise the list is
        rebuilt from the valid rectangles. */
    method UpdateDetection(gameFrame: Frame, rects: seq<Rect>, textured: seq<bool>, now: int,
                           sqrt: real -> real)
      requires |rects| == |textured| && IsSqrt(sqrt)
      modifies this
      ensures IsEmpty(gameFrame) ==> detectedPlayers == old(detectedPlayers)
      ensures !IsEmpty(gameFrame) ==>
        detectedPlayers == Detections(rects, textured, gameFrame, knownPlayerNames, now, sqrt)
      ensures knownPlayerNames == old(knownPlayerNames)
      ensures detectionRadius == old(detectionRadius) && responseRadius == old(responseRadius)
    {
      if IsEmpty(gameFrame) {
        return;
      }
      detectedPlayers := [];
      var i := 0;
      while i < |rects|
        invariant 0 <= i <= |rects|
        invariant knownPlayerNames == old(knownPlayerNames)
        invariant detectionRadius == old(detectionRadius) && responseRadius == old(responseRadius)
        invariant detectedPlayers == Detections(rects[..i], textured[..i], gameFrame, knownPlayerNames, now, sqrt)
      {
        assert rects[..i + 1][..i] == rects[..i] && textured[..i + 1][..i] == textured[..i];
        var rect := rects[i];
        if !IsValidPlayerDetection(rect, gameFrame, textured[i]) {
          i := i + 1;
          continue;
        }
        var player := NewPlayer(rect, gameFrame, knownPlayerNames, now, sqrt);
        ghost var before := detectedPlayers;
        var j := 0;
        while j < |detectedPlayers| && !SamePlayer(detectedPlayers[j], player, sqrt)
          invariant 0 <= j <= |detectedPlayers| && detectedPlayers == before
          invariant FirstSameFrom(before, player, sqrt, j) == FirstSameFrom(before, player, sqrt, 0)
        {
          j := j + 1;
        }
        if j < |detectedPlayers| {
          var oldPlayer := detectedPlayers[j];
          player := player.(isMoving := Norm(Minus(player.position, oldPlayer.lastPosition), sqrt) > MOVING_DISTANCE);
          detectedPlayers := detectedPlayers[j := oldPlayer.(lastPosition := oldPlayer.position)];
        }
        detectedPlayers := detectedPlayers + [player];
        i := i + 1;
      }
      assert rects[..i] == rects && textured[..i] == textured;
    }

    /** GetNearbyPlayers: the detected players at most `maxDistance` away,
        in order; a negative argument means the detection radius. */
    method GetNearbyPlayers(maxDistance: real) returns (nearby: seq<Player>)
      ensures var radius := if maxDistance < 0.0 then detectionRadius else maxDistance;
        nearby == Within(detectedPlayers, radius)
        && forall p :: p in nearby <==> p in detectedPlayers && p.distance <= radius
    {
      var radius := maxDistance;
      if radius < 0.0 {
        radius := detectionRadius;
      }
      nearby := [];
      var i := 0;
      while i < |detectedPlayers|
        invariant 0 <= i <= |detectedPlayers|
        invariant nearby == Within(detectedPlayers[..i], radius)
      {
        assert detectedPlayers[..i + 1][..i] == detectedPlayers[..i];
        if detectedPlayers[i].distance <= radius {
          nearby := nearby + [detectedPlayers[i]];
        }
        i := i + 1;
      }
      assert detectedPlayers[..i] == detectedPlayers;
      WithinMembers(detectedPlayers, radius);
    }

    /** IsPlayerNearby: some detected player is within `radius` (a negative
        radius means the response radius) and, unless `playerName` is empty,
        has that name. */
    method IsPlayerNearby(playerName: string, radius: real) returns (nearby: bool)
      ensures nearby <==> AnyNearby(detectedPlayers, playerName,
                                    if radius < 0.0 then responseRadius else radius)
    {
      var r := radius;
      if r < 0.0 {
        r := responseRadius;
      }
      var i := 0;
      while i < |detectedPlayers|
        invariant 0 <= i <= |detectedPlayers|
        invariant forall k :: 0 <= k < i ==>
          !(detectedPlayers[k].distance <= r && (playerName == [] || detectedPlayers[k].name == playerName))
      {
        var player := detectedPlayers[i];
        if player.distance <= r {
          if playerName == [] || player.name == playerName {
            return true;
          }
        }
        i := i + 1;
      }
      return false;
    }

    /** AddKnownPlayer: the name is appended when absent, so a list without
        duplicates keeps none. */
    method AddKnownPlayer(name: string)
      modifies this
      ensures name in old(knownPlayerNames) ==> knownPlayerNames == old(knownPlayerNames)
      ensures name !in old(knownPlayerNames) ==> knownPlayerNames == old(knownPlayerNames) + [name]
      ensures NoDuplicates(old(knownPlayerNames)) ==> NoDuplicates(knownPlayerNames)
      ensures detectedPlayers == old(detectedPlayers)
      ensures detectionRadius == old(detectionRadius) && responseRadius == old(responseRadius)
    {
      if FirstIndex(knownPlayerNames, name).None? {
        knownPlayerNames := knownPlayerNames + [name];
      }
    }

    /** RemoveKnownPlayer: the first occurrence is erased when present. */
    method RemoveKnownPlayer(name: string)
      modifies this
      ensures knownPlayerNames == RemoveFirst(old(knownPlayerNames), name)
      ensures detectedPlayers == old(detectedPlayers)
      ensures detectionRadius == old(detectionRadius) && responseRadius == old(responseRadius)
    {
      var it := FirstIndex(knownPlayerNames, name);
      if it.Some? {
        knownPlayerNames := knownPlayerNames[..it.value] + knownPlayerNames[it.value + 1..];
      }
    }

    /** FindPlayerByName: the index of the first detected player with that
        name, None (a null pointer) when there is none. */
    method FindPlayerByName(name: string) returns (found: Option<nat>)
      ensures found.Some? ==> found.value < |detectedPlayers| && detectedPlayers[found.value].name == name
      ensures found.Some? ==> forall k :: 0 <= k < found.value ==> detectedPlayers[k].name != name
      ensures found.None? <==> forall k :: 0 <= k < |detectedPlayers| ==> detectedPlayers[k].name != name
    {
      var i := 0;
      while i < |detectedPlayers|
        invariant 0 <= i <= |detectedPlayers|
        invariant forall k :: 0 <= k < i ==> detectedPlayers[k].name != name
      {
        if detectedPlayers[i].name == name {
          return Some(i);
        }
        i := i + 1;
      }
      return None;
    }

    method SetDetectionRadius(radius: real)
      modifies this
      ensures detectionRadius == radius && responseRadius == old(responseRadius)
      ensures detectedPlayers == old(detectedPlayers) && knownPlayerNames == old(knownPlayerNames)
    {
      detectionRadius := radius;
    }

    method GetPlayerCount() returns (count: int)
      ensures count == |detectedPlayers|
    {
      count := |detectedPlayers|;
    }
  }

  /** The list after erasing the first occurrence of `x`, if any. */
  function RemoveFirst<T(==)>(s: seq<T>, x: T): (r: seq<T>)
    ensures x !in s ==> r == s
    ensures x in s ==> |r| == |s| - 1
    ensures forall y :: y in r ==> y in s
  {
    match FirstIndex(s, x)
    case None => s
    case Some(i) => s[..i] + s[i + 1..]
  }

  /** In a list without duplicates removal takes the name out entirely and
      keeps the list free of duplicates. */
  lemma RemoveFirstNoDuplicates<T>(s: seq<T>, x: T)
    requires NoDuplicates(s)
    ensures x !in RemoveFirst(s, x) && NoDuplicates(RemoveFirst(s, x))
  {
    var f := FirstIndex(s, x);
    if f.Some? {
      var i := f.value;
      var r := RemoveFirst(s, x);
      assert r == s[..i] + s[i + 1..];
      forall k | 0 <= k < |r| ensures r[k] != x {
        if k < i { assert r[k] == s[k]; } else { assert r[k] == s[k + 1]; }
      }
      forall a, b | 0 <= a < b < |r| ensures r[a] != r[b] {
        var a', b' := if a < i then a else a + 1, if b < i then b else b + 1;
        assert r[a] == s[a'] && r[b] == s[b'];
      }
    }
  }

  /** Adding a new name and removing it again restores the list. */
  lemma AddThenRemove<T>(s: seq<T>, x: T)
    requires x !in s
    ensures RemoveFirst(s + [x], x) == s
  {
    var f := FirstIndex(s + [x], x);
    assert (s + [x])[|s|] == x;
    assert f.Some?;
    assert f.value == |s|;
    assert (s + [x])[..|s|] == s;
  }
}
