/**
 * The Carbon Catcher mini-game.  Good and bad objects fall onto a player box
 * that the arrow keys move; catching a good object scores a point, catching
 * a bad one or letting a good one fall past the bottom costs a life, and the
 * last life ends the round and awards the score to the points ledger.
 *
 * The first part of the module states every transition as a function on a
 * snapshot `Game` of the component's state and proves what the transitions
 * keep.  The class `CarbonCatcher` at the end holds the same state in fields
 * and performs the transitions the way the component does, with the in-place
 * passes over the particle buffer and the object list as loops; each of its
 * methods is proved to produce the transition function's result.
 *
 * Calls to `addPoints` are recorded in the log `awards`.  Random draws, the
 * frame's fall distance and the storage of the browser are parameters.
 */
module CarbonGame {

  import opened JsNumber

  // ---------------------------------------------------------------------
  // Constants of the component

  const CanvasWidth: int := 500
  const CanvasHeight: int := 500
  const PlayerY: int := 450
  const PlayerWidth: int := 60
  const PlayerHeight: int := 60
  const PlayerSpeed: int := 9
  const StartX: int := 200
  /** The largest player position the right-arrow clamp allows. */
  const MaxX: int := CanvasWidth - PlayerWidth
  const ObjectSize: int := 40
  /** Objects spawn at `Math.random() * (canvas.width - 40)`, below this bound. */
  const SpawnXBound: real := (CanvasWidth - ObjectSize) as real
  const SpawnY: real := -40.0
  const StartLives: int := 3
  const ParticleLife: int := 30
  const BurstSize: nat := 15
  const CatchColor: string := "#00FF00"
  const HitColor: string := "#FF0000"
  const HighScoreKey: string := "carbonGameHighScore"

  datatype Kind = Good | Bad

  /** The player's cosmetic mode, chosen with the keys 1, 2 and 3. */
  datatype Icon = Tree | Solar | Turbine

  datatype FallingObject = FallingObject(x: real, y: real, kind: Kind, icon: string, id: int)

  datatype Particle = Particle(x: real, y: real, vx: real, vy: real, color: string, life: int, size: real)

  /** The three draws `createParticles` makes for one particle: its velocity and its size. */
  datatype ParticleDraw = ParticleDraw(vx: real, vy: real, size: real)

  const GoodIcons: seq<string> := ["\U{267B}", "\U{1F6B4}", "\U{2600}", "\U{1F333}"]
  const BadIcons: seq<string> := ["\U{1F3ED}", "\U{1F6CD}", "\U{1F697}", "\U{2708}\U{FE0F}"]

  /**
   * A snapshot of the component: its React state (score, lives, time, running,
   * completed, tutorial, icon, high score), its refs (speed multiplier, player
   * position, objects, particles, id counter), local storage, and the amounts
   * passed to `addPoints` so far.
   */
  datatype Game = Game(
    score: int, lives: int, gameTime: int, speed: real,
    running: bool, completed: bool, showTutorial: bool,
    playerX: int, icon: Icon,
    objects: seq<FallingObject>, particles: seq<Particle>, nextId: int,
    highScore: Num, storage: map<string, string>, awards: seq<int>)

  /** The component when it mounts, before the high score is loaded. */
  function Initial(storage: map<string, string>): Game
  {
    Game(0, StartLives, 0, 1.0, false, false, true, StartX, Tree, [], [], 0, Int(0), storage, [])
  }

  // ---------------------------------------------------------------------
  // Collision

  /** An axis-aligned box: left, top, width, height. */
  datatype Box = Box(x: real, y: real, w: real, h: real)

  /** The collision test: the two boxes overlap, with strict inequalities on every side. */
  predicate Overlaps(a: Box, b: Box)
  {
    a.x < b.x + b.w && a.x + a.w > b.x && a.y < b.y + b.h && a.y + a.h > b.y
  }

  function ObjectBox(o: FallingObject): Box
  {
    Box(o.x, o.y, ObjectSize as real, ObjectSize as real)
  }

  function PlayerBox(playerX: int): Box
  {
    Box(playerX as real, PlayerY as real, PlayerWidth as real, PlayerHeight as real)
  }

  predicate Collides(o: FallingObject, playerX: int)
  {
    Overlaps(ObjectBox(o), PlayerBox(playerX))
  }

  /** The point (x, y) lies strictly inside the box. */
  predicate Inside(b: Box, x: real, y: real)
  {
    b.x < x < b.x + b.w && b.y < y < b.y + b.h
  }

  function MaxReal(a: real, b: real): real { if a < b then b else a }

  function MinReal(a: real, b: real): real { if a < b then a else b }

  /** Two boxes of positive size collide exactly when some point lies strictly inside both. */
  lemma OverlapsIffCommonPoint(a: Box, b: Box)
    requires a.w > 0.0 && a.h > 0.0 && b.w > 0.0 && b.h > 0.0
    ensures Overlaps(a, b) <==> exists x: real, y: real :: Inside(a, x, y) && Inside(b, x, y)
  {
    if Overlaps(a, b) {
      var x := (MaxReal(a.x, b.x) + MinReal(a.x + a.w, b.x + b.w)) / 2.0;
      var y := (MaxReal(a.y, b.y) + MinReal(a.y + a.h, b.y + b.h)) / 2.0;
      assert Inside(a, x, y) && Inside(b, x, y);
    }
  }

  /** The test is symmetric, and boxes that only share an edge do not collide. */
  lemma OverlapsSymmetricAndStrict(a: Box, b: Box)
    ensures Overlaps(a, b) == Overlaps(b, a)
    ensures a.x + a.w == b.x || b.x + b.w == a.x || a.y + a.h == b.y || b.y + b.h == a.y ==> !Overlaps(a, b)
  {
  }

  // ---------------------------------------------------------------------
  // Keyboard

  /** The player position after `handleKeyDown` for `key`. */
  function MoveX(x: int, key: string): (r: int)
    ensures 0 <= x <= MaxX ==> 0 <= r <= MaxX
    ensures key == "ArrowLeft" ==> 0 <= r && (0 <= x ==> r <= x) && (0 < r ==> r == x - PlayerSpeed)
    ensures key == "ArrowRight" ==> r <= MaxX && (x <= MaxX ==> x <= r) && (r < MaxX ==> r == x + PlayerSpeed)
    ensures key == "ArrowLeft" && PlayerSpeed <= x ==> r == x - PlayerSpeed
    ensures key == "ArrowRight" && x + PlayerSpeed <= MaxX ==> r == x + PlayerSpeed
    ensures key != "ArrowLeft" && key != "ArrowRight" ==> r == x
  {
    if key == "ArrowLeft" then (if x - PlayerSpeed < 0 then 0 else x - PlayerSpeed)
    else if key == "ArrowRight" then (if MaxX < x + PlayerSpeed then MaxX else x + PlayerSpeed)
    else x
  }

  /** The player icon after `handleKeyDown` for `key`. */
  function IconAfter(icon: Icon, key: string): Icon
  {
    if key == "1" then Tree else if key == "2" then Solar else if key == "3" then Turbine else icon
  }

  function KeyDown(g: Game, key: string): Game
  {
    g.(playerX := MoveX(g.playerX, key), icon := IconAfter(g.icon, key))
  }

  /** The number keys change only the icon; the arrow keys change only the position. */
  lemma KeysTouchOneThing(g: Game, key: string)
    ensures key == "1" || key == "2" || key == "3" ==> KeyDown(g, key) == g.(icon := KeyDown(g, key).icon)
    ensures key == "ArrowLeft" || key == "ArrowRight" ==> KeyDown(g, key) == g.(playerX := KeyDown(g, key).playerX)
  {
  }

  // ---------------------------------------------------------------------
  // Lives, awards and the round lifecycle

  /** `loseLife()`, run sequentially: one life less, slower at 2 and 1 lives, game over at 0 or below. */
  function LostLife(g: Game): Game
  {
    var lives := g.lives - 1;
    var speed := if lives == 2 then 0.8 else if lives == 1 then 0.6 else g.speed;
    if lives <= 0 then
      g.(lives := lives, speed := speed, running := false, completed := true,
         awards := if g.completed then g.awards else g.awards + [g.score])
    else
      g.(lives := lives, speed := speed)
  }

  /** Awards made so far plus one if the round may still award: `loseLife` never changes it. */
  function AwardBudget(g: Game): int
  {
    |g.awards| + if g.completed then 0 else 1
  }

  lemma LoseLifeEffect(g: Game)
    ensures LostLife(g).lives == g.lives - 1
    ensures LostLife(g).speed == if g.lives == 3 then 0.8 else if g.lives == 2 then 0.6 else g.speed
    ensures LostLife(g).running == (g.running && g.lives > 1)
    ensures LostLife(g).completed == (g.completed || g.lives <= 1)
    ensures LostLife(g).awards == if g.lives <= 1 && !g.completed then g.awards + [g.score] else g.awards
    ensures LostLife(g).(lives := g.lives, speed := g.speed, running := g.running,
                         completed := g.completed, awards := g.awards) == g
  {
  }

  /** `resetGame()`. */
  function Reset(g: Game): Game
  {
    g.(running := false, score := 0, gameTime := 0, lives := StartLives, speed := 1.0,
       objects := [], particles := [], playerX := StartX, completed := false)
  }

  /** `startGame()`: reset, then running, tutorial hidden. */
  function Start(g: Game): Game
  {
    Reset(g).(running := true, showTutorial := false)
  }

  /** The pause button. */
  function Pause(g: Game): Game
  {
    g.(running := false)
  }

  /** `exitGame()`: awards the score while running and not completed; the completed flag is left as it was. */
  function Exit(g: Game): Game
  {
    if g.running && !g.completed then g.(awards := g.awards + [g.score]) else g
  }

  lemma ResetProperties(g: Game)
    ensures Reset(Reset(g)) == Reset(g)
    ensures Start(g) == Reset(g).(running := true, showTutorial := false)
    ensures Reset(g).score == 0 && Reset(g).lives == StartLives && Reset(g).speed == 1.0
    ensures Reset(g).objects == [] && Reset(g).particles == [] && Reset(g).playerX == StartX
    ensures !Reset(g).completed && !Reset(g).running && Reset(g).gameTime == 0
    ensures Reset(g).nextId == g.nextId && Reset(g).awards == g.awards && Reset(g).highScore == g.highScore
  {
  }

  lemma ExitEffect(g: Game)
    ensures Exit(g).awards == if g.running && !g.completed then g.awards + [g.score] else g.awards
    ensures Exit(g).completed == g.completed
    ensures Exit(g).(awards := g.awards) == g
  {
  }

  /**
   * Because `exitGame` does not set the completed flag, a game over after an
   * exit awards the score a second time (the navigation that follows an exit
   * normally unmounts the component first).
   */
  lemma ExitThenGameOverAwardsTwice(g: Game)
    requires g.running && !g.completed && g.lives == 1
    ensures LostLife(Exit(g)).awards == g.awards + [g.score, g.score]
  {
  }

  /**
   * Three life losses in a running round with three lives: 2, 1, 0 lives with
   * speeds 0.8 and 0.6, the round ends on the third, and the score is awarded once.
   */
  lemma ThreeLossesEndTheRound(g: Game)
    requires g.running && !g.completed && g.lives == StartLives
    ensures var g1 := LostLife(g); var g2 := LostLife(g1); var g3 := LostLife(g2);
      && g1.lives == 2 && g1.speed == 0.8 && g1.running && g1.awards == g.awards
      && g2.lives == 1 && g2.speed == 0.6 && g2.running && g2.awards == g.awards
      && g3.lives == 0 && g3.speed == 0.6 && !g3.running && g3.completed && g3.awards == g.awards + [g.score]
      && g3.score == g.score
  {
  }

  // ---------------------------------------------------------------------
  // High score

  /** The mount effect: a present, non-empty stored high score is read with `parseInt`. */
  function LoadHighScore(g: Game): Game
  {
    if HighScoreKey in g.storage && g.storage[HighScoreKey] != ""
    then g.(highScore := ParseInt(g.storage[HighScoreKey]))
    else g
  }

  /** The effect after a score change: a higher score becomes the high score and is stored as decimal text. */
  function SaveHighScore(g: Game): Game
  {
    if Greater(g.score, g.highScore)
    then g.(highScore := Int(g.score), storage := g.storage[HighScoreKey := ToText(Int(g.score))])
    else g
  }

  /**
   * After the effect a numeric high score is at least the score and at least
   * the earlier high score, and whenever the effect changed it, the stored text
   * reads back as the new high score.
   */
  lemma SaveHighScoreProperties(g: Game)
    ensures g.highScore.Int? ==> (SaveHighScore(g).highScore.Int?
      && SaveHighScore(g).highScore.value >= g.score
      && SaveHighScore(g).highScore.value >= g.highScore.value)
    ensures g.highScore.NaN? ==> SaveHighScore(g) == g
    ensures SaveHighScore(g).highScore != g.highScore ==>
      HighScoreKey in SaveHighScore(g).storage
      && LoadHighScore(SaveHighScore(g)).highScore == SaveHighScore(g).highScore
  {
    if Greater(g.score, g.highScore) {
      var t := ToText(Int(g.score));
      var r := g.(highScore := Int(g.score), storage := g.storage[HighScoreKey := t]);
      assert SaveHighScore(g) == r;
      ParseIntToText(Int(g.score));
      var m: nat := if g.score < 0 then -g.score else g.score;
      NatToTextDigits(m);
      assert t != "";
      assert LoadHighScore(r) == r.(highScore := ParseInt(t));
    }
  }

  // ---------------------------------------------------------------------
  // Spawning

  predicate ValidSpawn(x: real, iconIndex: nat)
  {
    0.0 <= x < SpawnXBound && iconIndex < 4
  }

  /** `spawnObject()`: a new object at the top with the next id; the draws are `x`, `kind` and `iconIndex`. */
  function Spawn(g: Game, x: real, kind: Kind, iconIndex: nat): Game
    requires ValidSpawn(x, iconIndex)
  {
    var icon := if kind == Good then GoodIcons[iconIndex] else BadIcons[iconIndex];
    g.(objects := g.objects + [FallingObject(x, SpawnY, kind, icon, g.nextId)], nextId := g.nextId + 1)
  }

  // ---------------------------------------------------------------------
  // Particles

  predicate ValidDraw(d: ParticleDraw)
  {
    -2.0 <= d.vx < 2.0 && -2.0 <= d.vy < 2.0 && 2.0 <= d.size < 6.0
  }

  /** The draws for one collision burst: 15 particles, each drawn within the bounds of `createParticles`. */
  predicate ValidBurst(draws: seq<ParticleDraw>)
  {
    |draws| == BurstSize && forall i :: 0 <= i < |draws| ==> ValidDraw(draws[i])
  }

  /** The particles `createParticles(x, y, color, |draws|)` appends. */
  function Burst(x: real, y: real, color: string, draws: seq<ParticleDraw>): seq<Particle>
  {
    seq(|draws|, i requires 0 <= i < |draws| => Particle(x, y, draws[i].vx, draws[i].vy, color, ParticleLife, draws[i].size))
  }

  lemma BurstShape(x: real, y: real, color: string, draws: seq<ParticleDraw>)
    ensures |Burst(x, y, color, draws)| == |draws|
    ensures forall i :: 0 <= i < |draws| ==> var p := Burst(x, y, color, draws)[i];
      p.x == x && p.y == y && p.color == color && p.life == ParticleLife
      && p.vx == draws[i].vx && p.vy == draws[i].vy && p.size == draws[i].size
  {
  }

  /** One frame of a particle: moved by its velocity, one frame less of life. */
  function Age(p: Particle): Particle
  {
    p.(x := p.x + p.vx, y := p.y + p.vy, life := p.life - 1)
  }

  /** The particle pass: every particle aged, and those whose life reaches 0 or below dropped. */
  function Survivors(ps: seq<Particle>): seq<Particle>
    decreases |ps|
  {
    if ps == [] then [] else (if Age(ps[0]).life <= 0 then [] else [Age(ps[0])]) + Survivors(ps[1..])
  }

  /** One step of the particle pass over the suffix starting at `i`. */
  lemma SurvivorsStep(ps: seq<Particle>, i: nat)
    requires i < |ps|
    ensures Survivors(ps[i..]) == (if Age(ps[i]).life <= 0 then [] else [Age(ps[i])]) + Survivors(ps[i + 1..])
  {
    assert ps[i..][1..] == ps[i + 1..];
  }

  /** The particle pass treats each particle on its own and keeps the survivors in order. */
  lemma {:induction false} SurvivorsAppend(a: seq<Particle>, b: seq<Particle>)
    ensures Survivors(a + b) == Survivors(a) + Survivors(b)
    decreases |a|
  {
    if a == [] {
      assert a + b == b;
    } else {
      SurvivorsAppend(a[1..], b);
      assert (a + b)[0] == a[0];
      assert (a + b)[1..] == a[1..] + b;
      var head := if Age(a[0]).life <= 0 then [] else [Age(a[0])];
      assert Survivors(a) == head + Survivors(a[1..]);
      assert Survivors(a + b) == head + Survivors(a[1..] + b);
    }
  }

  /** Particles with more than one frame of life survive aged; the others, adjacent or not, all go. */
  lemma {:induction false} SurvivorsMembers(ps: seq<Particle>)
    ensures forall q :: q in Survivors(ps) <==> exists p :: p in ps && p.life > 1 && q == Age(p)
    ensures |Survivors(ps)| <= |ps|
    decreases |ps|
  {
    if ps != [] {
      SurvivorsMembers(ps[1..]);
      assert ps == [ps[0]] + ps[1..];
      forall q | q in Survivors(ps) ensures exists p :: p in ps && p.life > 1 && q == Age(p) {
        if q !in Survivors(ps[1..]) {
          assert q == Age(ps[0]) && ps[0] in ps;
        } else {
          var p :| p in ps[1..] && p.life > 1 && q == Age(p);
          assert p in ps;
        }
      }
      forall q | exists p :: p in ps && p.life > 1 && q == Age(p) ensures q in Survivors(ps) {
        var p :| p in ps && p.life > 1 && q == Age(p);
        if p != ps[0] {
          assert p in ps[1..];
        }
      }
    }
  }

  function AgeFrames(ps: seq<Particle>, frames: nat): seq<Particle>
    decreases frames
  {
    if frames == 0 then ps else AgeFrames(Survivors(ps), frames - 1)
  }

  lemma {:induction false} SurvivorsLowerLife(ps: seq<Particle>, m: int)
    requires forall i :: 0 <= i < |ps| ==> ps[i].life <= m
    ensures forall i :: 0 <= i < |Survivors(ps)| ==> 1 <= Survivors(ps)[i].life <= m - 1
    decreases |ps|
  {
    if ps != [] {
      SurvivorsLowerLife(ps[1..], m);
    }
  }

  lemma {:induction false} LastFrameClears(ps: seq<Particle>)
    requires forall i :: 0 <= i < |ps| ==> ps[i].life <= 1
    ensures Survivors(ps) == []
    decreases |ps|
  {
    if ps != [] {
      LastFrameClears(ps[1..]);
    }
  }

  /** Particles of at most `m` frames of life are all gone after `m` particle passes. */
  lemma {:induction false} ParticlesExpire(ps: seq<Particle>, m: nat)
    requires 1 <= m
    requires forall i :: 0 <= i < |ps| ==> ps[i].life <= m
    ensures AgeFrames(ps, m) == []
    decreases m
  {
    if m == 1 {
      LastFrameClears(ps);
    } else {
      SurvivorsLowerLife(ps, m);
      ParticlesExpire(Survivors(ps), m - 1);
    }
  }

  // ---------------------------------------------------------------------
  // The object pass

  /** `objects.splice(k, 1)`: removes the element at `k`, or nothing when `k` is past the end. */
  function Splice(s: seq<FallingObject>, k: nat): seq<FallingObject>
  {
    if k < |s| then s[..k] + s[k + 1..] else s
  }

  function CentreX(playerX: int): real
  {
    playerX as real + (PlayerWidth as real) / 2.0
  }

  const CentreY: real := PlayerY as real + (PlayerHeight as real) / 2.0

  /** A collision with the object at `k`: score or a lost life, a burst at the player, and the splice. */
  function Caught(g: Game, kind: Kind, k: nat, burst: seq<ParticleDraw>): Game
  {
    var h := if kind == Good then g.(score := g.score + 1) else LostLife(g);
    var h2 := h.(particles := h.particles + Burst(CentreX(g.playerX), CentreY, if kind == Good then CatchColor else HitColor, burst));
    h2.(objects := Splice(h2.objects, k))
  }

  /** An object past the bottom edge: a lost life if it was good, and the splice at `k`. */
  function Escaped(g: Game, kind: Kind, k: nat): Game
  {
    var h := if kind == Good then LostLife(g) else g;
    h.(objects := Splice(h.objects, k))
  }

  /** The object at `k` after falling `fall` at the current speed multiplier. */
  function Fallen(o: FallingObject, fall: real, speed: real): FallingObject
  {
    o.(y := o.y + fall * speed)
  }

  /**
   * The `forEach` callback for index `k`: move the object, apply the collision
   * outcome, then the past-the-bottom outcome.  Both outcomes splice at the
   * same index, and both test the moved object.
   */
  function Visit(g: Game, k: nat, fall: real, burst: seq<ParticleDraw>): Game
    requires k < |g.objects|
  {
    var o := Fallen(g.objects[k], fall, g.speed);
    var g1 := g.(objects := g.objects[k := o]);
    var g2 := if Collides(o, g.playerX) then Caught(g1, o.kind, k, burst) else g1;
    if o.y > CanvasHeight as real then Escaped(g2, o.kind, k) else g2
  }

  /**
   * `forEach` from index `k` over a list that had `n` elements when it began:
   * an index beyond the current end is skipped, so every splice makes the pass
   * skip the element that moved into the removed one's place.
   */
  function PassFrom(g: Game, k: nat, n: nat, fall: real, bursts: seq<seq<ParticleDraw>>): Game
    requires |bursts| == n
    decreases n - k
  {
    if k >= n then g
    else if k < |g.objects| then PassFrom(Visit(g, k, fall, bursts[k]), k + 1, n, fall, bursts)
    else PassFrom(g, k + 1, n, fall, bursts)
  }

  function ObjectPass(g: Game, fall: real, bursts: seq<seq<ParticleDraw>>): Game
    requires |bursts| == |g.objects|
  {
    PassFrom(g, 0, |g.objects|, fall, bursts)
  }

  /** One animation frame: the particle pass, then the object pass. */
  function Frame(g: Game, fall: real, bursts: seq<seq<ParticleDraw>>): Game
    requires |bursts| == |g.objects|
  {
    ObjectPass(g.(particles := Survivors(g.particles)), fall, bursts)
  }

  /**
   * The collision branch: a good object scores exactly 1, a bad one costs
   * exactly one life, a burst appears at the player's centre in the catch or
   * hit colour, and the object at `k` is removed.
   */
  lemma CaughtOutcome(g: Game, kind: Kind, k: nat, burst: seq<ParticleDraw>)
    ensures var r := Caught(g, kind, k, burst);
      && r.score == g.score + (if kind == Good then 1 else 0)
      && r.lives == g.lives - (if kind == Bad then 1 else 0)
      && r.particles == g.particles + Burst(CentreX(g.playerX), CentreY, if kind == Good then CatchColor else HitColor, burst)
      && r.objects == Splice(g.objects, k)
  {
  }

  /** The bottom-edge branch: a good object costs one life, and the object at `k` is removed. */
  lemma EscapedOutcome(g: Game, kind: Kind, k: nat)
    ensures var r := Escaped(g, kind, k);
      && r.score == g.score && r.particles == g.particles
      && r.lives == g.lives - (if kind == Good then 1 else 0)
      && r.objects == Splice(g.objects, k)
  {
  }

  lemma SpliceTwice(s: seq<FallingObject>, k: nat)
    requires k < |s|
    ensures Splice(s, k) == s[..k] + s[k + 1..]
    ensures Splice(Splice(s, k), k) == s[..k] + s[if k + 2 < |s| then k + 2 else |s|..]
  {
    if k + 1 < |s| {
      assert Splice(s, k)[..k] == s[..k];
      assert Splice(s, k)[k + 1..] == s[k + 2..];
    } else {
      assert Splice(s, k) == s[..k];
    }
  }

  /**
   * The outcome of one visit: a caught good object scores exactly 1, a caught
   * bad object costs exactly one life, a good object past the bottom costs one
   * life, and each of the two outcomes that applies removes one element at `k`.
   */
  lemma VisitOutcome(g: Game, k: nat, fall: real, burst: seq<ParticleDraw>)
    requires k < |g.objects|
    ensures var o := Fallen(g.objects[k], fall, g.speed);
      var hit := Collides(o, g.playerX);
      var gone := o.y > CanvasHeight as real;
      var drop := (if hit then 1 else 0) + (if gone then 1 else 0);
      var r := Visit(g, k, fall, burst);
      && r.score == g.score + (if hit && o.kind == Good then 1 else 0)
      && r.lives == g.lives - (if hit && o.kind == Bad then 1 else 0) - (if gone && o.kind == Good then 1 else 0)
      && |r.particles| == |g.particles| + (if hit then |burst| else 0)
      && r.particles[..|g.particles|] == g.particles
      && r.objects == if drop == 0 then g.objects[k := o]
                      else g.objects[..k] + g.objects[if k + drop < |g.objects| then k + drop else |g.objects|..]
  {
    var o := Fallen(g.objects[k], fall, g.speed);
    var g1 := g.(objects := g.objects[k := o]);
    var hit := Collides(o, g.playerX);
    var g2 := if hit then Caught(g1, o.kind, k, burst) else g1;
    if hit {
      CaughtOutcome(g1, o.kind, k, burst);
    }
    if o.y > CanvasHeight as real {
      EscapedOutcome(g2, o.kind, k);
    }
    SpliceTwice(g1.objects, k);
    assert g1.objects[..k] == g.objects[..k];
    assert g1.objects[k + 1..] == g.objects[k + 1..];
    assert k + 2 < |g.objects| ==> g1.objects[k + 2..] == g.objects[k + 2..];
  }

  /** A pass over two objects whose first is caught (good, above the bottom) never visits the second. */
  lemma SpliceSkipsNext(g: Game, fall: real, bursts: seq<seq<ParticleDraw>>)
    requires |g.objects| == 2 && |bursts| == 2
    requires var o := Fallen(g.objects[0], fall, g.speed);
      o.kind == Good && Collides(o, g.playerX) && o.y <= CanvasHeight as real
    ensures ObjectPass(g, fall, bursts).objects == [g.objects[1]]
    ensures ObjectPass(g, fall, bursts).score == g.score + 1
  {
    var g1 := Visit(g, 0, fall, bursts[0]);
    VisitOutcome(g, 0, fall, bursts[0]);
    assert g1.objects == [g.objects[1]];
    assert PassFrom(g1, 1, 2, fall, bursts) == PassFrom(g1, 2, 2, fall, bursts);
  }

  /**
   * A good object caught while already past the bottom edge both scores and
   * costs a life, and its second splice removes the unvisited object after it.
   */
  lemma CaughtPastBottomSplicesTwice(g: Game, fall: real, bursts: seq<seq<ParticleDraw>>)
    requires |g.objects| == 3 && |bursts| == 3
    requires var o := Fallen(g.objects[0], fall, g.speed);
      o.kind == Good && Collides(o, g.playerX) && o.y > CanvasHeight as real
    ensures ObjectPass(g, fall, bursts).objects == [g.objects[2]]
    ensures ObjectPass(g, fall, bursts).score == g.score + 1
    ensures ObjectPass(g, fall, bursts).lives == g.lives - 1
  {
    var g1 := Visit(g, 0, fall, bursts[0]);
    VisitOutcome(g, 0, fall, bursts[0]);
    assert g1.objects == [g.objects[2]];
    assert PassFrom(g1, 1, 3, fall, bursts) == PassFrom(g1, 2, 3, fall, bursts);
    assert PassFrom(g1, 2, 3, fall, bursts) == PassFrom(g1, 3, 3, fall, bursts);
  }

  // ---------------------------------------------------------------------
  // What a round keeps

  /**
   * From `g` to `r`: the score did not fall, lives did not rise, earlier
   * awards stay, the award budget is unchanged and a completed round stays
   * completed — so at most one award is added, and none once completed.
   */
  predicate Progress(g: Game, r: Game)
  {
    && g.score <= r.score && r.lives <= g.lives
    && |g.awards| <= |r.awards| && r.awards[..|g.awards|] == g.awards
    && AwardBudget(r) == AwardBudget(g) && (g.completed ==> r.completed)
  }

  lemma ProgressAwardsAtMostOnce(g: Game, r: Game)
    requires Progress(g, r)
    ensures |r.awards| <= |g.awards| + (if g.completed then 0 else 1)
    ensures g.completed ==> r.awards == g.awards
  {
  }

  lemma ProgressTransitive(a: Game, b: Game, c: Game)
    requires Progress(a, b) && Progress(b, c)
    ensures Progress(a, c)
  {
    assert c.awards[..|a.awards|] == c.awards[..|b.awards|][..|a.awards|];
  }

  lemma LoseLifeProgress(g: Game)
    ensures Progress(g, LostLife(g))
  {
  }

  lemma VisitProgress(g: Game, k: nat, fall: real, burst: seq<ParticleDraw>)
    requires k < |g.objects|
    ensures Progress(g, Visit(g, k, fall, burst))
  {
    var o := Fallen(g.objects[k], fall, g.speed);
    var g1 := g.(objects := g.objects[k := o]);
    var g2 := if Collides(o, g.playerX) then Caught(g1, o.kind, k, burst) else g1;
    assert Progress(g, g2) by {
      if Collides(o, g.playerX) && o.kind == Bad {
        LoseLifeProgress(g1);
      }
    }
    if o.y > CanvasHeight as real {
      if o.kind == Good {
        LoseLifeProgress(g2);
      }
      ProgressTransitive(g, g2, Visit(g, k, fall, burst));
    }
  }

  lemma {:induction false} PassFromProgress(g: Game, k: nat, n: nat, fall: real, bursts: seq<seq<ParticleDraw>>)
    requires |bursts| == n
    ensures Progress(g, PassFrom(g, k, n, fall, bursts))
    decreases n - k
  {
    if k < n {
      if k < |g.objects| {
        var g1 := Visit(g, k, fall, bursts[k]);
        VisitProgress(g, k, fall, bursts[k]);
        PassFromProgress(g1, k + 1, n, fall, bursts);
        ProgressTransitive(g, g1, PassFrom(g1, k + 1, n, fall, bursts));
      } else {
        PassFromProgress(g, k + 1, n, fall, bursts);
      }
    }
  }

  /** Object ids ascend along the list and lie below the counter; spawn positions lie in the field. */
  predicate ObjectsWellFormed(objects: seq<FallingObject>, nextId: int)
  {
    && (forall i, j :: 0 <= i < j < |objects| ==> objects[i].id < objects[j].id)
    && (forall i :: 0 <= i < |objects| ==> 0 <= objects[i].id < nextId && 0.0 <= objects[i].x < SpawnXBound)
  }

  predicate ParticlesWellFormed(ps: seq<Particle>)
  {
    forall i :: 0 <= i < |ps| ==> 1 <= ps[i].life <= ParticleLife
  }

  /** The invariant the component keeps between callbacks. */
  predicate Inv(g: Game)
  {
    && 0 <= g.playerX <= MaxX
    && 0 <= g.score && 0 <= g.nextId
    && (g.speed == 1.0 || g.speed == 0.8 || g.speed == 0.6)
    && ObjectsWellFormed(g.objects, g.nextId)
    && ParticlesWellFormed(g.particles)
  }

  lemma SpliceWellFormed(s: seq<FallingObject>, k: nat, nextId: int)
    requires ObjectsWellFormed(s, nextId)
    ensures ObjectsWellFormed(Splice(s, k), nextId)
  {
    if k < |s| {
      var r := Splice(s, k);
      assert forall i :: 0 <= i < |r| ==> r[i] == s[if i < k then i else i + 1];
    }
  }

  lemma LoseLifeInv(g: Game)
    requires Inv(g)
    ensures Inv(LostLife(g))
  {
  }

  lemma CaughtInv(g: Game, kind: Kind, k: nat, burst: seq<ParticleDraw>)
    requires Inv(g)
    ensures Inv(Caught(g, kind, k, burst))
  {
    CaughtOutcome(g, kind, k, burst);
    var r := Caught(g, kind, k, burst);
    SpliceWellFormed(g.objects, k, g.nextId);
    if kind == Bad {
      LoseLifeInv(g);
    }
    assert r.nextId == g.nextId && r.playerX == g.playerX;
    assert r.speed == g.speed || r.speed == 0.8 || r.speed == 0.6;
    var b := Burst(CentreX(g.playerX), CentreY, if kind == Good then CatchColor else HitColor, burst);
    assert ParticlesWellFormed(b);
    assert forall i :: 0 <= i < |r.particles| ==> r.particles[i] == if i < |g.particles| then g.particles[i] else b[i - |g.particles|];
  }

  lemma EscapedInv(g: Game, kind: Kind, k: nat)
    requires Inv(g)
    ensures Inv(Escaped(g, kind, k))
  {
    EscapedOutcome(g, kind, k);
    SpliceWellFormed(g.objects, k, g.nextId);
    if kind == Good {
      LoseLifeInv(g);
    }
  }

  lemma FallenInv(g: Game, k: nat, fall: real)
    requires Inv(g) && k < |g.objects|
    ensures Inv(g.(objects := g.objects[k := Fallen(g.objects[k], fall, g.speed)]))
  {
  }

  lemma VisitInv(g: Game, k: nat, fall: real, burst: seq<ParticleDraw>)
    requires Inv(g) && k < |g.objects|
    ensures Inv(Visit(g, k, fall, burst))
  {
    var o := Fallen(g.objects[k], fall, g.speed);
    var g1 := g.(objects := g.objects[k := o]);
    FallenInv(g, k, fall);
    var g2 := if Collides(o, g.playerX) then Caught(g1, o.kind, k, burst) else g1;
    if Collides(o, g.playerX) {
      CaughtInv(g1, o.kind, k, burst);
    }
    if o.y > CanvasHeight as real {
      EscapedInv(g2, o.kind, k);
    }
  }

  lemma {:induction false} PassFromInv(g: Game, k: nat, n: nat, fall: real, bursts: seq<seq<ParticleDraw>>)
    requires Inv(g) && |bursts| == n
    ensures Inv(PassFrom(g, k, n, fall, bursts))
    decreases n - k
  {
    if k < n {
      if k < |g.objects| {
        VisitInv(g, k, fall, bursts[k]);
        PassFromInv(Visit(g, k, fall, bursts[k]), k + 1, n, fall, bursts);
      } else {
        PassFromInv(g, k + 1, n, fall, bursts);
      }
    }
  }

  lemma FrameKeeps(g: Game, fall: real, bursts: seq<seq<ParticleDraw>>)
    requires |bursts| == |g.objects|
    ensures Progress(g, Frame(g, fall, bursts))
    ensures Inv(g) ==> Inv(Frame(g, fall, bursts))
  {
    var g0 := g.(particles := Survivors(g.particles));
    PassFromProgress(g0, 0, |g.objects|, fall, bursts);
    if Inv(g) {
      SurvivorsLowerLife(g.particles, ParticleLife);
      PassFromInv(g0, 0, |g.objects|, fall, bursts);
    }
  }

  lemma SpawnKeeps(g: Game, x: real, kind: Kind, iconIndex: nat)
    requires ValidSpawn(x, iconIndex)
    ensures Progress(g, Spawn(g, x, kind, iconIndex))
    ensures Inv(g) ==> Inv(Spawn(g, x, kind, iconIndex))
    ensures Spawn(g, x, kind, iconIndex).nextId == g.nextId + 1
    ensures Spawn(g, x, kind, iconIndex).objects == g.objects + [Spawn(g, x, kind, iconIndex).objects[|g.objects|]]
    ensures Spawn(g, x, kind, iconIndex).objects[|g.objects|].id == g.nextId
  {
    var r := Spawn(g, x, kind, iconIndex);
    assert forall i :: 0 <= i < |g.objects| ==> r.objects[i] == g.objects[i];
  }

  lemma LifecycleInv(g: Game, key: string)
    requires Inv(g)
    ensures Inv(KeyDown(g, key)) && Inv(Reset(g)) && Inv(Start(g)) && Inv(Pause(g)) && Inv(Exit(g))
    ensures Inv(SaveHighScore(g)) && Inv(LoadHighScore(g))
  {
  }

  /** The callbacks that run within one round: everything except start, reset and exit. */
  datatype Event =
    | KeyPress(key: string)
    | SpawnTick(x: real, kind: Kind, iconIndex: nat)
    | FrameTick(fall: real, bursts: seq<seq<ParticleDraw>>)
    | HighScoreCheck
    | PauseClick

  predicate Fits(g: Game, e: Event)
  {
    match e
    case SpawnTick(x, _, i) => ValidSpawn(x, i)
    case FrameTick(fall, bursts) => fall >= 0.0 && |bursts| == |g.objects|
      && forall k :: 0 <= k < |bursts| ==> ValidBurst(bursts[k])
    case _ => true
  }

  function Step(g: Game, e: Event): Game
    requires Fits(g, e)
  {
    match e
    case KeyPress(key) => KeyDown(g, key)
    case SpawnTick(x, kind, i) => Spawn(g, x, kind, i)
    case FrameTick(fall, bursts) => Frame(g, fall, bursts)
    case HighScoreCheck => SaveHighScore(g)
    case PauseClick => Pause(g)
  }

  predicate RunsFrom(g: Game, es: seq<Event>)
    decreases |es|
  {
    es == [] || (Fits(g, es[0]) && RunsFrom(Step(g, es[0]), es[1..]))
  }

  function Run(g: Game, es: seq<Event>): Game
    requires RunsFrom(g, es)
    decreases |es|
  {
    if es == [] then g else Run(Step(g, es[0]), es[1..])
  }

  lemma StepKeeps(g: Game, e: Event)
    requires Fits(g, e)
    ensures Progress(g, Step(g, e))
    ensures Inv(g) ==> Inv(Step(g, e))
  {
    match e
    case FrameTick(fall, bursts) => FrameKeeps(g, fall, bursts);
    case SpawnTick(x, kind, i) => SpawnKeeps(g, x, kind, i);
    case KeyPress(key) => if Inv(g) { LifecycleInv(g, key); }
    case _ => if Inv(g) { LifecycleInv(g, ""); }
  }

  /**
   * Within a round, whatever the callbacks and draws, the score never falls,
   * lives never rise, the invariant holds, and `addPoints` is called at most
   * once — never once the round is completed.
   */
  lemma {:induction false} RoundAwardsAtMostOnce(g: Game, es: seq<Event>)
    requires RunsFrom(g, es)
    ensures Progress(g, Run(g, es))
    ensures |Run(g, es).awards| <= |g.awards| + (if g.completed then 0 else 1)
    ensures g.completed ==> Run(g, es).awards == g.awards
    ensures Inv(g) ==> Inv(Run(g, es))
    decreases |es|
  {
    if es != [] {
      var g1 := Step(g, es[0]);
      StepKeeps(g, es[0]);
      RoundAwardsAtMostOnce(g1, es[1..]);
      ProgressTransitive(g, g1, Run(g1, es[1..]));
    }
    ProgressAwardsAtMostOnce(g, Run(g, es));
  }

  // ---------------------------------------------------------------------
  // The component

  class CarbonCatcher {
    var score: int
    var lives: int
    var gameTime: int
    var gameSpeed: real
    var isRunning: bool
    var gameCompleted: bool
    var showTutorial: bool
    var playerX: int
    var playerIcon: Icon
    var objects: seq<FallingObject>
    var particles: seq<Particle>
    var objectIdCounter: int
    var highScore: Num
    var storage: map<string, string>
    var awards: seq<int>

    ghost function State(): Game
      reads this
    {
      Game(score, lives, gameTime, gameSpeed, isRunning, gameCompleted, showTutorial, playerX, playerIcon,
           objects, particles, objectIdCounter, highScore, storage, awards)
    }

    ghost predicate Valid()
      reads this
    {
      Inv(State())
    }

    /** The component as first rendered, over the browser's storage. */
    constructor (initialStorage: map<string, string>)
      ensures State() == Initial(initialStorage) && Valid()
    {
      score, lives, gameTime, gameSpeed := 0, StartLives, 0, 1.0;
      isRunning, gameCompleted, showTutorial := false, false, true;
      playerX, playerIcon := StartX, Tree;
      objects, particles, objectIdCounter := [], [], 0;
      highScore, storage, awards := Int(0), initialStorage, [];
    }

    /** The mount effect that reads the stored high score. */
    method LoadStoredHighScore()
      requires Valid()
      modifies this
      ensures State() == LoadHighScore(old(State())) && Valid()
    {
      if HighScoreKey in storage && storage[HighScoreKey] != "" {
        highScore := ParseInt(storage[HighScoreKey]);
      }
    }

    /** The effect on `[score, highScore]` that persists a new high score. */
    method SaveHighScoreEffect()
      requires Valid()
      modifies this
      ensures State() == SaveHighScore(old(State())) && Valid()
    {
      if Greater(score, highScore) {
        highScore := Int(score);
        storage := storage[HighScoreKey := ToText(Int(score))];
      }
    }

    /** `handleKeyDown`: the arrow keys move the player within the field, 1/2/3 pick the icon. */
    method HandleKeyDown(key: string)
      requires Valid()
      modifies this
      ensures State() == KeyDown(old(State()), key) && Valid()
      ensures 0 <= playerX <= MaxX
    {
      if key == "ArrowLeft" {
        playerX := if playerX - PlayerSpeed < 0 then 0 else playerX - PlayerSpeed;
      }
      if key == "ArrowRight" {
        playerX := if MaxX < playerX + PlayerSpeed then MaxX else playerX + PlayerSpeed;
      }
      if key == "1" { playerIcon := Tree; }
      if key == "2" { playerIcon := Solar; }
      if key == "3" { playerIcon := Turbine; }
      LifecycleInv(old(State()), key);
    }

    /** `spawnObject`, with its three random draws as parameters. */
    method SpawnObject(x: real, kind: Kind, iconIndex: nat)
      requires Valid() && ValidSpawn(x, iconIndex)
      modifies this
      ensures State() == Spawn(old(State()), x, kind, iconIndex) && Valid()
      ensures objects[|objects| - 1].id == old(objectIdCounter) && objectIdCounter == old(objectIdCounter) + 1
    {
      var icon := if kind == Good then GoodIcons[iconIndex] else BadIcons[iconIndex];
      objects := objects + [FallingObject(x, SpawnY, kind, icon, objectIdCounter)];
      objectIdCounter := objectIdCounter + 1;
      SpawnKeeps(old(State()), x, kind, iconIndex);
    }

    /**
     * `createParticles(x, y, color, count)`: appends `count` particles, one per draw.
     * The source's default `count` of 10 is never used: both callers pass 15.
     */
    method CreateParticles(x: real, y: real, color: string, count: nat, draws: seq<ParticleDraw>)
      requires |draws| == count
      modifies this
      ensures State() == old(State()).(particles := old(particles) + Burst(x, y, color, draws))
    {
      var i := 0;
      while i < count
        invariant 0 <= i <= count
        invariant State() == old(State()).(particles := old(particles) + Burst(x, y, color, draws[..i]))
      {
        particles := particles + [Particle(x, y, draws[i].vx, draws[i].vy, color, ParticleLife, draws[i].size)];
        assert Burst(x, y, color, draws[..i + 1]) == Burst(x, y, color, draws[..i]) + [particles[|particles| - 1]];
        i := i + 1;
      }
      assert draws[..count] == draws;
    }

    /** `loseLife()`. */
    method LoseLife()
      modifies this
      ensures State() == LostLife(old(State()))
    {
      var newLives := lives - 1;
      if newLives == 2 {
        gameSpeed := 0.8;
      } else if newLives == 1 {
        gameSpeed := 0.6;
      }
      if newLives <= 0 {
        isRunning := false;
        if !gameCompleted {
          awards := awards + [score];
          gameCompleted := true;
        }
      }
      lives := newLives;
    }

    /** The particle loop of `update`: from the last index down, age each particle and splice out the expired. */
    method UpdateParticles()
      modifies this
      ensures State() == old(State()).(particles := Survivors(old(particles)))
    {
      ghost var ps := particles;
      var i := |particles|;
      while i > 0
        invariant 0 <= i <= |ps|
        invariant particles == ps[..i] + Survivors(ps[i..])
        invariant State() == old(State()).(particles := particles)
      {
        i := i - 1;
        SurvivorsStep(ps, i);
        assert particles[..i] == ps[..i] && particles[i] == ps[i];
        assert particles[i + 1..] == Survivors(ps[i + 1..]);
        var p := Age(particles[i]);
        if p.life <= 0 {
          particles := particles[..i] + particles[i + 1..];
        } else {
          particles := particles[i := p];
          assert particles == ps[..i] + [p] + Survivors(ps[i + 1..]);
        }
      }
      assert ps[0..] == ps;
    }

    /** The collision branch of the `forEach` callback for index `k`. */
    method CatchObject(kind: Kind, k: nat, burst: seq<ParticleDraw>)
      requires |burst| == BurstSize
      modifies this
      ensures State() == Caught(old(State()), kind, k, burst)
    {
      var cx := CentreX(playerX);
      if kind == Good {
        score := score + 1;
        CreateParticles(cx, CentreY, CatchColor, BurstSize, burst);
      } else {
        LoseLife();
        CreateParticles(cx, CentreY, HitColor, BurstSize, burst);
      }
      objects := Splice(objects, k);
    }

    /** The past-the-bottom branch of the `forEach` callback for index `k`. */
    method DropObject(kind: Kind, k: nat)
      modifies this
      ensures State() == Escaped(old(State()), kind, k)
    {
      if kind == Good {
        LoseLife();
      }
      objects := Splice(objects, k);
    }

    /** The `forEach` callback for index `k`: move the object, then test for a catch and for the bottom edge. */
    method VisitObject(k: nat, fall: real, burst: seq<ParticleDraw>)
      requires k < |objects| && |burst| == BurstSize
      modifies this
      ensures State() == Visit(old(State()), k, fall, burst)
    {
      ghost var g0 := State();
      var obj := objects[k];
      obj := obj.(y := obj.y + fall * gameSpeed);
      assert obj == Fallen(g0.objects[k], fall, g0.speed);
      objects := objects[k := obj];
      ghost var g1 := State();
      assert g1 == g0.(objects := g0.objects[k := obj]);
      if Collides(obj, playerX) {
        CatchObject(obj.kind, k, burst);
      }
      ghost var g2 := State();
      assert g2 == if Collides(obj, g0.playerX) then Caught(g1, obj.kind, k, burst) else g1;
      if obj.y > CanvasHeight as real {
        DropObject(obj.kind, k);
      }
    }

    /**
     * The `forEach` over the objects in `update`, with the frame's fall distance
     * and one burst of draws per index: indices run over the length at the start
     * and an index past the current end is skipped.
     */
    method UpdateObjects(fall: real, bursts: seq<seq<ParticleDraw>>)
      requires |bursts| == |objects|
      requires forall k :: 0 <= k < |bursts| ==> ValidBurst(bursts[k])
      modifies this
      ensures State() == ObjectPass(old(State()), fall, bursts)
    {
      var n := |objects|;
      var k := 0;
      while k < n
        invariant 0 <= k <= n
        invariant PassFrom(State(), k, n, fall, bursts) == ObjectPass(old(State()), fall, bursts)
      {
        if k < |objects| {
          VisitObject(k, fall, bursts[k]);
        }
        k := k + 1;
      }
    }

    /** One call of `update`: the particle pass, then the object pass. */
    method Update(fall: real, bursts: seq<seq<ParticleDraw>>)
      requires Valid() && fall >= 0.0 && |bursts| == |objects|
      requires forall k :: 0 <= k < |bursts| ==> ValidBurst(bursts[k])
      modifies this
      ensures State() == Frame(old(State()), fall, bursts) && Valid()
      ensures Progress(old(State()), State())
    {
      UpdateParticles();
      UpdateObjects(fall, bursts);
      FrameKeeps(old(State()), fall, bursts);
    }

    /** `resetGame()`. */
    method ResetGame()
      requires Valid()
      modifies this
      ensures State() == Reset(old(State())) && Valid()
    {
      isRunning := false;
      score := 0;
      gameTime := 0;
      lives := StartLives;
      gameSpeed := 1.0;
      objects := [];
      particles := [];
      playerX := StartX;
      gameCompleted := false;
    }

    /** `startGame()`. */
    method StartGame()
      requires Valid()
      modifies this
      ensures State() == Start(old(State())) && Valid()
    {
      ResetGame();
      isRunning := true;
      showTutorial := false;
    }

    /** The pause button. */
    method PauseGame()
      requires Valid()
      modifies this
      ensures State() == Pause(old(State())) && Valid()
    {
      isRunning := false;
    }

    /** `exitGame()`, without the navigation that follows it. */
    method ExitGame()
      requires Valid()
      modifies this
      ensures State() == Exit(old(State())) && Valid()
    {
      if isRunning && !gameCompleted {
        awards := awards + [score];
      }
    }
  }
}
