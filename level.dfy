/**
 * The level scene of src/game/scenes/Level.ts: the data-point layout, the
 * score and its label, completion with the elapsed time, restart on space,
 * and the fall respawn.
 *
 * Rendering, tweens and the random background are not modelled. Overlap
 * detection is replaced by an explicit `CollectDataPoint(id, now)` on a point
 * that is still present; `Date.now()` is the argument `now` (milliseconds).
 */
module Scenes {
  import opened Wrappers
  import opened Entities
  import GameConfig

  datatype Pos = Pos(x: int, y: int)

  datatype Platform = Platform(x: int, y: int, width: int)

  /** Where `createPlayer` places the player. */
  const SpawnX: int := 100
  const SpawnY: int := GameConfig.Height - 100

  /** Where the fall check of `update()` puts the player back; written separately from the spawn point. */
  const RespawnX: int := 100
  const RespawnY: int := GameConfig.Height - 100

  /** How far below the field the player may fall before it is respawned. */
  const FallMargin: int := 100

  /** The static platforms of `createPlatforms`. */
  function Platforms(): seq<Platform> {
    [ Platform(150, 450, 150), Platform(400, 380, 120), Platform(650, 300, 150),
      Platform(300, 220, 100), Platform(550, 150, 130), Platform(100, 280, 80) ]
  }

  /** `platformPositions` of `createDataPoints`. */
  function PlatformPositions(): seq<Pos> {
    [Pos(150, 450), Pos(400, 380), Pos(650, 300), Pos(300, 220), Pos(550, 150), Pos(100, 280)]
  }

  /** `groundPositions` of `createDataPoints`. */
  function GroundPositions(): seq<Pos> {
    var ground := GameConfig.Height - 60;
    [Pos(250, ground), Pos(500, ground), Pos(700, ground)]
  }

  /** `ps.map(p => ({ x: p.x, y: p.y - dy }))`. */
  function Raised(ps: seq<Pos>, dy: int): (r: seq<Pos>)
    ensures |r| == |ps|
    ensures forall i :: 0 <= i < |ps| ==> r[i] == Pos(ps[i].x, ps[i].y - dy)
  {
    seq(|ps|, i requires 0 <= i < |ps| => Pos(ps[i].x, ps[i].y - dy))
  }

  /** `allPositions`: the raised platform positions followed by the ground positions. */
  function AllPositions(): seq<Pos> {
    Raised(PlatformPositions(), 50) + GroundPositions()
  }

  /** The data points sit first on the platforms, each raised by 50 in platform order, then on the ground unchanged. */
  lemma AllPositionsOrder()
    ensures |AllPositions()| == |PlatformPositions()| + |GroundPositions()|
    ensures forall i :: 0 <= i < |PlatformPositions()| ==>
      AllPositions()[i] == Pos(PlatformPositions()[i].x, PlatformPositions()[i].y - 50)
    ensures forall i :: 0 <= i < |GroundPositions()| ==>
      AllPositions()[|PlatformPositions()| + i] == GroundPositions()[i]
  {
  }

  /** The data-point group right after `createDataPoints`: every position, keyed by its index. */
  function InitialDataPoints(): (m: map<nat, Pos>)
    ensures forall id: nat :: id in m <==> id < |AllPositions()|
    ensures forall id :: id in m ==> m[id] == AllPositions()[id]
  {
    map id: nat | id < |AllPositions()| :: AllPositions()[id]
  }

  /**
   * Nine data points: one 50 above the centre of each of the six platforms, in the
   * platforms' order, then three 60 above the bottom of the field, all inside it.
   */
  lemma DataPointLayout()
    ensures |AllPositions()| == 9
    ensures forall i :: 0 <= i < 6 ==>
      AllPositions()[i] == Pos(Platforms()[i].x, Platforms()[i].y - 50)
    ensures forall i :: 6 <= i < 9 ==> AllPositions()[i].y == GameConfig.Height - 60
    ensures forall i :: 0 <= i < 9 ==>
      0 <= AllPositions()[i].x <= GameConfig.Width && 0 <= AllPositions()[i].y <= GameConfig.Height
  {
    var a := AllPositions();
    assert a == [Pos(150, 400), Pos(400, 330), Pos(650, 250), Pos(300, 170), Pos(550, 100),
                 Pos(100, 230), Pos(250, 540), Pos(500, 540), Pos(700, 540)];
  }

  /** The decimal digit for `d`. */
  function Digit(d: nat): char
    requires d < 10
  {
    "0123456789"[d]
  }

  /** JavaScript's rendering of a non-negative integer in a template string. */
  function Decimal(n: nat): (s: string)
    ensures |s| >= 1
    ensures forall i :: 0 <= i < |s| ==> '0' <= s[i] <= '9'
    decreases n
  {
    if n < 10 then [Digit(n)] else Decimal(n / 10) + [Digit(n % 10)]
  }

  /** The value of a string of decimal digits. */
  function DecimalValue(s: string): nat
    decreases |s|
  {
    if s == [] then 0
    else
      var last := s[|s| - 1];
      DecimalValue(s[..|s| - 1]) * 10 + (if '0' <= last <= '9' then (last - '0') as nat else 0)
  }

  /** Rendering a number and reading it back gives the number. */
  lemma {:induction false} DecimalRoundTrip(n: nat)
    ensures DecimalValue(Decimal(n)) == n
    decreases n
  {
    var s := Decimal(n);
    if n < 10 {
      assert s[..|s| - 1] == [];
    } else {
      assert s[..|s| - 1] == Decimal(n / 10);
      DecimalRoundTrip(n / 10);
    }
  }

  /** The score label `${score} / ${total}`. */
  function ScoreLabel(score: nat, total: nat): string {
    Decimal(score) + " / " + Decimal(total)
  }

  /** The label reads back: the digits before ` / ` are the score, the digits after it the total. */
  lemma ScoreLabelReadsBack(score: nat, total: nat)
    ensures var text, k := ScoreLabel(score, total), |Decimal(score)|;
      && 0 < k && k + 3 < |text| && text[k..k + 3] == " / "
      && DecimalValue(text[..k]) == score && DecimalValue(text[k + 3..]) == total
  {
    var text, k := ScoreLabel(score, total), |Decimal(score)|;
    assert text[..k] == Decimal(score) && text[k + 3..] == Decimal(total);
    DecimalRoundTrip(score);
    DecimalRoundTrip(total);
  }

  /** The literal label `createUI` starts with is the label of score 0 out of all data points. */
  lemma InitialLabelMatchesTotal()
    ensures ScoreLabel(0, |AllPositions()|) == "0 / 9"
  {
    DataPointLayout();
    assert Decimal(0) == "0" && Decimal(9) == "9";
  }

  /** `Math.floor((now - startTime) / 1000)`: whole seconds elapsed, rounded down. */
  function ElapsedSeconds(startTime: int, now: int): (r: int)
    ensures r * 1000 <= now - startTime < r * 1000 + 1000
    ensures now >= startTime ==> r >= 0
  {
    (now - startTime) / 1000
  }

  /** The fall check of `update()`: below the field by more than the margin, back to the respawn point at rest. */
  function FallCheck(s: PlayerState): (t: PlayerState)
    ensures s.y > GameConfig.Height + FallMargin ==>
      t.x == RespawnX && t.y == RespawnY && t.vx == 0 && t.vy == 0
    ensures s.y > GameConfig.Height + FallMargin ==>
      t == s.(x := t.x, y := t.y, vx := t.vx, vy := t.vy)
    ensures s.y <= GameConfig.Height + FallMargin ==> t == s
  {
    if s.y > GameConfig.Height + FallMargin then s.(x := RespawnX, y := RespawnY, vx := 0, vy := 0) else s
  }

  /** A respawned player stands where a new level's player starts, and keeps its jump count. */
  lemma RespawnIsSpawn(s: PlayerState)
    requires s.y > GameConfig.Height + FallMargin
    ensures FallCheck(s).y <= GameConfig.Height + FallMargin
    ensures (FallCheck(s).x, FallCheck(s).y) == (SpawnX, SpawnY)
    ensures FallCheck(s).jumpCount == s.jumpCount
  {
  }

  /** The `forEach` of `createDataPoints`: one point per position, added in order and keyed by its index. */
  method AddEach(positions: seq<Pos>) returns (group: map<nat, Pos>)
    ensures forall id: nat :: id in group <==> id < |positions|
    ensures forall id :: id in group ==> group[id] == positions[id]
    ensures |group.Keys| == |positions|
  {
    group := map[];
    var i := 0;
    while i < |positions|
      invariant 0 <= i <= |positions|
      invariant forall id: nat :: id in group <==> id < i
      invariant forall id :: id in group ==> group[id] == positions[id]
      invariant |group.Keys| == i
    {
      assert i !in group.Keys;
      group := group[i := positions[i]];
      i := i + 1;
    }
  }

  /** The Level scene. */
  class Level {
    var player: Player?
    var score: int
    var startTime: int
    var totalDataPoints: int
    /** The live data points of the group, keyed by their index in `AllPositions()`. */
    var dataPoints: map<nat, Pos>
    var scoreText: string
    /** Whether `levelComplete()` has put up the completion overlay. */
    var completed: bool
    /** The whole seconds shown on the completion overlay. */
    var elapsedSeconds: int
    /** Whether the `once('keydown-SPACE')` restart handler is registered and has not fired. */
    var restartArmed: bool

    /**
     * The scene invariant: each collected point counted once, the label showing the
     * score, and the level complete exactly when no point is left.
     */
    ghost predicate Valid()
      reads this, player
    {
      && player != null && player.Valid()
      && totalDataPoints == |AllPositions()|
      && (forall id :: id in dataPoints ==> id < totalDataPoints && dataPoints[id] == AllPositions()[id])
      && 0 <= score
      && score + |dataPoints.Keys| == totalDataPoints
      && scoreText == ScoreLabel(score, totalDataPoints)
      && completed == (score >= totalDataPoints)
      && (restartArmed ==> completed)
    }

    /** The scene as Phaser constructs and first starts it: the field defaults, then `create()`. */
    constructor (now: int)
      ensures Valid()
      ensures score == 0 && startTime == now && totalDataPoints == 9
      ensures dataPoints == InitialDataPoints() && scoreText == "0 / 9"
      ensures !completed && !restartArmed
      ensures fresh(player)
      ensures player.State() == PlayerState(SpawnX, SpawnY, 0, 0, false, 0, 2, 300, false, None)
    {
      player := null;
      score, startTime, totalDataPoints := 0, 0, 0;
      dataPoints := map[];
      scoreText := "";
      completed, elapsedSeconds, restartArmed := false, 0, false;
      new;
      Create(now);
    }

    /** `create()`, on a scene without a completion overlay or restart handler. */
    method Create(now: int)
      requires !completed && !restartArmed
      modifies this
      ensures Valid() && fresh(player)
      ensures score == 0 && startTime == now && totalDataPoints == 9
      ensures dataPoints == InitialDataPoints() && scoreText == "0 / 9"
      ensures !completed && !restartArmed && elapsedSeconds == old(elapsedSeconds)
      ensures player.State() == PlayerState(SpawnX, SpawnY, 0, 0, false, 0, 2, 300, false, None)
    {
      score := 0;
      startTime := now;
      CreateDataPoints();
      DataPointLayout();
      assert |dataPoints.Keys| == totalDataPoints == 9;
      assert forall id :: id in dataPoints ==> id < totalDataPoints && dataPoints[id] == AllPositions()[id];
      CreatePlayer();
      CreateUI();
      InitialLabelMatchesTotal();
    }

    /** `createDataPoints()`: one data point per position of `AllPositions()`. */
    method CreateDataPoints()
      modifies this`dataPoints, this`totalDataPoints
      ensures totalDataPoints == |AllPositions()|
      ensures dataPoints == InitialDataPoints()
      ensures |dataPoints.Keys| == totalDataPoints
    {
      var positions := AllPositions();
      totalDataPoints := |positions|;
      dataPoints := AddEach(positions);
      assert dataPoints.Keys == InitialDataPoints().Keys;
    }

    /** `createPlayer()`. */
    method CreatePlayer()
      modifies this`player
      ensures fresh(player)
      ensures player.Valid()
      ensures player.State() == PlayerState(SpawnX, SpawnY, 0, 0, false, 0, 2, 300, false, None)
    {
      player := new Player(SpawnX, SpawnY);
    }

    /** `createUI()`: the score label starts as the literal `0 / 9`. */
    method CreateUI()
      modifies this`scoreText
      ensures scoreText == "0 / 9"
    {
      scoreText := "0 / 9";
    }

    /**
     * `collectDataPoint()`: the point is removed, the score goes up by one, and
     * collecting the last point completes the level.
     */
    method CollectDataPoint(id: nat, now: int)
      requires Valid()
      requires id in dataPoints
      modifies this
      ensures Valid()
      ensures player == old(player) && startTime == old(startTime) && totalDataPoints == old(totalDataPoints)
      ensures dataPoints == old(dataPoints) - {id}
      ensures score == old(score) + 1
      ensures !old(completed)
      ensures completed <==> dataPoints == map[]
      ensures completed ==> elapsedSeconds == ElapsedSeconds(startTime, now) && restartArmed
      ensures !completed ==> elapsedSeconds == old(elapsedSeconds) && !restartArmed
    {
      dataPoints := dataPoints - {id};
      score := score + 1;
      scoreText := ScoreLabel(score, totalDataPoints);
      if score >= totalDataPoints {
        LevelComplete(now);
      }
      assert dataPoints.Keys == old(dataPoints).Keys - {id};
      assert dataPoints == map[] <==> |dataPoints.Keys| == 0;
    }

    /** `levelComplete()`: show the elapsed seconds and register the one-shot restart handler. */
    method LevelComplete(now: int)
      modifies this`elapsedSeconds, this`completed, this`restartArmed
      ensures elapsedSeconds == ElapsedSeconds(startTime, now)
      ensures completed && restartArmed
    {
      elapsedSeconds := ElapsedSeconds(startTime, now);
      completed := true;
      restartArmed := true;
    }

    /**
     * A space key press. The `once` handler fires only while armed; it restarts
     * the scene, which drops the overlay and its handlers and runs `create()`.
     */
    method PressSpace(now: int)
      requires Valid()
      modifies this
      ensures Valid()
      ensures old(restartArmed) ==>
        && fresh(player) && score == 0 && startTime == now
        && dataPoints == InitialDataPoints() && !completed && !restartArmed
        && player.State() == PlayerState(SpawnX, SpawnY, 0, 0, false, 0, 2, 300, false, None)
      ensures !old(restartArmed) ==> unchanged(this)
    {
      if restartArmed {
        restartArmed := false;
        completed := false;
        Create(now);
      }
    }

    /** `update()`: the player's frame, then the fall respawn; score and data points stay. */
    method Update(body: Body, keys: Keys)
      requires Valid()
      modifies player
      ensures Valid()
      ensures player.State() == FallCheck(Step(old(player.State()), body, keys))
    {
      if player != null {
        player.Update(body, keys);
        if player.y > GameConfig.Height + FallMargin {
          player.SetPosition(RespawnX, RespawnY);
          player.SetVelocity(0, 0);
        }
      }
    }
  }
}
