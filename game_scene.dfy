/** The gameplay side of `GameScene`: its fields, the swipe handlers and the
    completion closures they attach to blocks, enemy spawning, clearing the live
    objects, the per-frame `update` and the contact handler.

    Rendering, audio and UI work is not performed here: each such call is recorded,
    in order, as a `Request` in the scene's `requests` log. Random draws are method
    parameters constrained to the ranges that `CGFloat.random(min:max:)` returns,
    and the gesture's y coordinate arrives already converted to scene space. */
module Scene {
  import opened Rules
  import opened Timing
  import opened ArrayExtension

  datatype Point = Point(x: real, y: real)

  datatype NodeKind = Block | Enemy

  datatype Sound = Pew | LevelUp | GameOver

  /** One call on the rendering or audio side, in the order the scene makes them. */
  datatype Request =
    | PlaySound(sound: Sound)
    | SetScoreText(value: int)
    | FadeOutDescription(duration: real)
    | FadeInDescription(duration: real)
    | AddChild(node: Sprite)           // attach the node and start its traversal
    | RemoveFromParent(node: Sprite)
    | ShakeCamera(duration: real)
    | Splash(duration: real)
    | ChangeBackgroundColor            // a palette colour picked at random

  /** A block or enemy node. Nodes are compared by identity, as the scene's
      `SKSpriteNode` objects are. Its fields are the values set when the scene
      creates it; the motion itself belongs to the engine. */
  class Sprite {
    const kind: NodeKind
    const size: real          // side of the square, in points
    const start: Point        // where it is placed
    const destination: Point  // where its traversal ends
    const duration: real      // seconds the traversal takes
    const halfTurns: real     // rotation over the traversal, in multiples of pi

    constructor (kind: NodeKind, size: real, start: Point, destination: Point, duration: real, halfTurns: real)
      ensures this.kind == kind && this.size == size
      ensures this.start == start && this.destination == destination
      ensures this.duration == duration && this.halfTurns == halfTurns
    {
      this.kind := kind;
      this.size := size;
      this.start := start;
      this.destination := destination;
      this.duration := duration;
      this.halfTurns := halfTurns;
    }
  }

  /** The removal requests `clearGameObjects` makes, one per node, in order. */
  function Removals(nodes: seq<Sprite>): seq<Request> {
    seq(|nodes|, i requires 0 <= i < |nodes| => RemoveFromParent(nodes[i]))
  }

  /** The requests a swipe makes on starting a round. */
  function RoundStartRequests(state: GameState): seq<Request> {
    if state != Play then [SetScoreText(0), FadeOutDescription(0.5)] else []
  }

  /** The requests a block's completion closure makes once `score` is the new score. */
  function BlockDoneRequests(block: Sprite, score: int): seq<Request> {
    [RemoveFromParent(block), ShakeCamera(0.4), PlaySound(LevelUp), SetScoreText(score)]
      + if ThemeChangeDue(score) then [ChangeBackgroundColor] else []
  }

  /** The requests of the completion closures of `blocks`, one after another,
      starting from `score`: the i-th completion raises the score to `score + i + 1`. */
  function CompletionRequests(blocks: seq<Sprite>, score: int): seq<Request>
    decreases |blocks|
  {
    if blocks == [] then []
    else CompletionRequests(blocks[..|blocks| - 1], score)
           + BlockDoneRequests(blocks[|blocks| - 1], score + |blocks|)
  }

  /** One completion requests a colour change iff the new score is a multiple of 10. */
  lemma BlockDoneThemeRequest(block: Sprite, score: int)
    ensures multiset(BlockDoneRequests(block, score))[ChangeBackgroundColor]
              == if ThemeChangeDue(score) then 1 else 0
  {
    var fixed := [RemoveFromParent(block), ShakeCamera(0.4), PlaySound(LevelUp), SetScoreText(score)];
    assert multiset(fixed)[ChangeBackgroundColor] == 0;
  }

  /** `n` consecutive block completions from `score` request exactly one
      background-colour change per multiple of 10 the score reaches. */
  lemma {:induction false} CompletionThemeRequests(blocks: seq<Sprite>, score: int)
    ensures multiset(CompletionRequests(blocks, score))[ChangeBackgroundColor]
              == ThemeChanges(score, |blocks|)
              == (score + |blocks|) / 10 - score / 10
    decreases |blocks|
  {
    ThemeChangesCount(score, |blocks|);
    if blocks != [] {
      var p, b := blocks[..|blocks| - 1], blocks[|blocks| - 1];
      CompletionThemeRequests(p, score);
      BlockDoneThemeRequest(b, score + |blocks|);
      var before, last := CompletionRequests(p, score), BlockDoneRequests(b, score + |blocks|);
      assert CompletionRequests(blocks, score) == before + last;
      assert multiset(before + last) == multiset(before) + multiset(last);
    }
  }

  /** The requests the contact handler makes, given the nodes it clears. */
  function ContactRequests(cleared: seq<Sprite>): seq<Request> {
    [PlaySound(GameOver), Splash(1.0), ShakeCamera(1.0)] + Removals(cleared) + [FadeInDescription(0.5)]
  }

  class GameScene {
    const width: real
    const height: real
    var state: GameState
    var score: int
    var gameObjects: seq<Sprite>
    var lastUpdateTime: real
    var dt: real
    var lastGenTime: real
    var requests: seq<Request>

    /** The scene's invariant: a positive width (enemy x positions are drawn from
        [0.2 * width, 0.8 * width], and `CGFloat.random` asserts `min < max`), a score that is never
        negative, no node listed twice, and a spawn accumulator below the largest
        threshold. */
    ghost predicate Valid()
      reads this
    {
      0.0 < width &&
      score >= 0 &&
      Distinct(gameObjects) &&
      lastGenTime < 1.5
    }

    /** Outside Play no node is live: the contact handler cleared them all, and only
        Play creates new ones. */
    ghost predicate OnlyPlayHasObjects()
      reads this
    {
      state != Play ==> gameObjects == []
    }

    ghost function RoundOf(): Round
      reads this
    {
      Round(state, score)
    }

    /** The enemy `addEnemy` creates at x-position `x` with traversal time `d`. */
    predicate IsEnemyFrom(e: Sprite, x: real, d: real) {
      e.kind == Enemy && e.size == 40.0 &&
      e.start == Point(x, height) && e.destination == Point(x, 0.0) &&
      e.duration == d && e.halfTurns == d
    }

    /** The field initialisers: Menu, score 0, nothing live, clocks at 0. */
    constructor (width: real, height: real)
      requires 0.0 < width
      ensures Valid() && OnlyPlayHasObjects()
      ensures this.width == width && this.height == height
      ensures state == Menu && score == 0 && gameObjects == []
      ensures lastUpdateTime == 0.0 && dt == 0.0 && lastGenTime == 0.0
      ensures requests == []
    {
      this.width := width;
      this.height := height;
      state := Menu;
      score := 0;
      gameObjects := [];
      lastUpdateTime := 0.0;
      dt := 0.0;
      lastGenTime := 0.0;
      requests := [];
    }

    /** What both swipe handlers do: start a round unless one is running, play the
        launch sound, and launch a 20-point block from `fromX` to `toX` at height
        `y`, taking 0.8 s and turning by pi. */
    method Swiped(fromX: real, toX: real, y: real) returns (block: Sprite)
      requires Valid()
      modifies this
      ensures Valid() && OnlyPlayHasObjects()
      ensures RoundOf() == Step(old(RoundOf()), Swipe)
      ensures fresh(block) && block.kind == Block && block.size == 20.0
      ensures block.start == Point(fromX, y) && block.destination == Point(toX, y)
      ensures block.duration == 0.8 && block.halfTurns == 1.0
      ensures gameObjects == old(gameObjects) + [block]
      ensures requests == old(requests) + RoundStartRequests(old(state)) + [PlaySound(Pew), AddChild(block)]
      ensures unchanged(this`lastUpdateTime, this`dt, this`lastGenTime)
    {
      if state != Play {
        state := Play;
        score := 0;
        requests := requests + [SetScoreText(score), FadeOutDescription(0.5)];
      }
      requests := requests + [PlaySound(Pew)];
      block := new Sprite(Block, 20.0, Point(fromX, y), Point(toX, y), 0.8, 1.0);
      requests := requests + [AddChild(block)];
      gameObjects := gameObjects + [block];
    }

    /** A right swipe launches a block from the left edge to the right edge. */
    method SwipedRight(y: real) returns (block: Sprite)
      requires Valid()
      modifies this
      ensures Valid() && OnlyPlayHasObjects()
      ensures RoundOf() == Step(old(RoundOf()), Swipe)
      ensures fresh(block) && block.kind == Block && block.size == 20.0
      ensures block.duration == 0.8 && block.halfTurns == 1.0
      ensures block.start == Point(0.0, y) && block.destination == Point(width, y)
      ensures gameObjects == old(gameObjects) + [block]
      ensures requests == old(requests) + RoundStartRequests(old(state)) + [PlaySound(Pew), AddChild(block)]
      ensures unchanged(this`lastUpdateTime, this`dt, this`lastGenTime)
    {
      block := Swiped(0.0, width, y);
    }

    /** A left swipe launches a block from the right edge to the left edge. */
    method SwipedLeft(y: real) returns (block: Sprite)
      requires Valid()
      modifies this
      ensures Valid() && OnlyPlayHasObjects()
      ensures RoundOf() == Step(old(RoundOf()), Swipe)
      ensures fresh(block) && block.kind == Block && block.size == 20.0
      ensures block.duration == 0.8 && block.halfTurns == 1.0
      ensures block.start == Point(width, y) && block.destination == Point(0.0, y)
      ensures gameObjects == old(gameObjects) + [block]
      ensures requests == old(requests) + RoundStartRequests(old(state)) + [PlaySound(Pew), AddChild(block)]
      ensures unchanged(this`lastUpdateTime, this`dt, this`lastGenTime)
    {
      block := Swiped(width, 0.0, y);
    }

    /** The completion closure of a block's traversal (identical for both swipe
        directions): drop the block, shake, score one point, and change the theme
        when the new score is a multiple of 10. */
    method BlockFinished(block: Sprite)
      requires Valid()
      modifies this
      ensures Valid()
      ensures old(OnlyPlayHasObjects()) ==> OnlyPlayHasObjects()
      ensures RoundOf() == Step(old(RoundOf()), BlockDone)
      ensures gameObjects == RemoveLast(old(gameObjects), block)
      ensures block !in gameObjects
      ensures requests == old(requests) + BlockDoneRequests(block, score)
      ensures unchanged(this`lastUpdateTime, this`dt, this`lastGenTime)
    {
      RemoveLastDistinct(gameObjects, block);
      gameObjects := RemoveObject(gameObjects, block);
      requests := requests + [RemoveFromParent(block), ShakeCamera(0.4)];
      score := score + 1;
      requests := requests + [PlaySound(LevelUp), SetScoreText(score)];
      if score % 10 == 0 {
        requests := requests + [ChangeBackgroundColor];
      }
    }

    /** Spawn one enemy at x-position `x` on the top edge, falling straight down
        over `d` seconds while turning by `d * pi`. The draws come from
        `CGFloat.random`, whose result lies in the closed range it is given. */
    method AddEnemy(x: real, d: real) returns (enemy: Sprite)
      requires Valid()
      requires 0.2 * width <= x <= 0.8 * width
      requires 2.0 <= d <= 3.0
      modifies this
      ensures Valid()
      ensures fresh(enemy) && IsEnemyFrom(enemy, x, d)
      ensures gameObjects == old(gameObjects) + [enemy]
      ensures requests == old(requests) + [AddChild(enemy)]
      ensures RoundOf() == old(RoundOf()) && unchanged(this`lastUpdateTime, this`dt, this`lastGenTime)
    {
      enemy := new Sprite(Enemy, 40.0, Point(x, height), Point(x, 0.0), d, d);
      requests := requests + [AddChild(enemy)];
      gameObjects := gameObjects + [enemy];
    }

    /** The completion closure of an enemy's traversal: drop the enemy; the round
        and the score are untouched. */
    method EnemyFinished(enemy: Sprite)
      requires Valid()
      modifies this
      ensures Valid()
      ensures old(OnlyPlayHasObjects()) ==> OnlyPlayHasObjects()
      ensures RoundOf() == Step(old(RoundOf()), EnemyDone)
      ensures gameObjects == RemoveLast(old(gameObjects), enemy)
      ensures enemy !in gameObjects
      ensures requests == old(requests) + [RemoveFromParent(enemy)]
      ensures unchanged(this`lastUpdateTime, this`dt, this`lastGenTime)
    {
      RemoveLastDistinct(gameObjects, enemy);
      gameObjects := RemoveObject(gameObjects, enemy);
      requests := requests + [RemoveFromParent(enemy)];
    }

    /** Detach every live node, in list order, then empty the list. On an empty
        list it changes nothing, so a second call is a no-op. */
    method ClearGameObjects()
      requires Valid()
      modifies this
      ensures Valid() && OnlyPlayHasObjects()
      ensures gameObjects == []
      ensures requests == old(requests) + Removals(old(gameObjects))
      ensures RoundOf() == old(RoundOf()) && unchanged(this`lastUpdateTime, this`dt, this`lastGenTime)
    {
      for i := 0 to |gameObjects|
        invariant gameObjects == old(gameObjects)
        invariant requests == old(requests) + Removals(gameObjects[..i])
        invariant RoundOf() == old(RoundOf()) && unchanged(this`lastUpdateTime, this`dt, this`lastGenTime)
      {
        assert Removals(gameObjects[..i + 1]) == Removals(gameObjects[..i]) + [RemoveFromParent(gameObjects[i])];
        requests := requests + [RemoveFromParent(gameObjects[i])];
      }
      assert gameObjects[..|gameObjects|] == gameObjects;
      gameObjects := [];
    }

    /** The per-frame callback: advance the clock, then, in Play only, feed `dt` to
        the spawn accumulator against this frame's `threshold` and spawn an enemy
        when it is reached. `threshold`, `enemyX` and `enemyDuration` are this
        frame's draws from `CGFloat.random`. */
    method Update(currentTime: real, threshold: real, enemyX: real, enemyDuration: real)
      requires Valid()
      requires 0.5 <= threshold <= 1.5
      requires 0.2 * width <= enemyX <= 0.8 * width
      requires 2.0 <= enemyDuration <= 3.0
      modifies this
      ensures Valid()
      ensures old(OnlyPlayHasObjects()) ==> OnlyPlayHasObjects()
      ensures RoundOf() == Step(old(RoundOf()), Tick)
      ensures dt == FrameDelta(old(lastUpdateTime), currentTime)
      ensures lastUpdateTime == currentTime
      ensures old(state) != Play ==>
                lastGenTime == old(lastGenTime) && gameObjects == old(gameObjects) && requests == old(requests)
      ensures old(state) == Play ==>
                var step := SpawnStep(old(lastGenTime), dt, threshold);
                var n := |old(gameObjects)|;
                lastGenTime == step.lastGenTime &&
                if step.spawn then
                  |gameObjects| == n + 1 && gameObjects[..n] == old(gameObjects) &&
                  fresh(gameObjects[n]) && IsEnemyFrom(gameObjects[n], enemyX, enemyDuration) &&
                  requests == old(requests) + [AddChild(gameObjects[n])]
                else
                  gameObjects == old(gameObjects) && requests == old(requests)
    {
      if lastUpdateTime > 0.0 {
        dt := currentTime - lastUpdateTime;
      } else {
        dt := 0.0;
      }
      lastUpdateTime := currentTime;

      if state == Play {
        lastGenTime := lastGenTime + dt;
        if lastGenTime >= threshold {
          lastGenTime := 0.0;
          var enemy := AddEnemy(enemyX, enemyDuration);
          assert gameObjects[..|old(gameObjects)|] == old(gameObjects);
        }
      }
    }

    /** The physics contact handler: the round is over whatever state it was in;
        sound, splash and shake are requested, every live node is cleared, and the
        description fades back in. The score is kept. */
    method DidBeginContact()
      requires Valid()
      modifies this
      ensures Valid() && OnlyPlayHasObjects()
      ensures RoundOf() == Step(old(RoundOf()), Contact)
      ensures gameObjects == []
      ensures requests == old(requests) + ContactRequests(old(gameObjects))
      ensures unchanged(this`lastUpdateTime, this`dt, this`lastGenTime)
    {
      state := Over;
      requests := requests + [PlaySound(GameOver), Splash(1.0), ShakeCamera(1.0)];
      ClearGameObjects();
      requests := requests + [FadeInDescription(0.5)];
    }
  }
}
