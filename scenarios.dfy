/** Clients of the scene: what callers can
    conclude from the event handlers' contracts alone. */
module Scenarios {
  import opened Rules
  import opened Scene

  /** A right swipe at y = 50 from the menu starts a round with one block
      travelling from the left edge to the right edge at that height; a later
      swipe adds a block without resetting the score. */
  method SwipeFromMenu(width: real, height: real)
    requires 0.0 < width
  {
    var scene := new GameScene(width, height);
    var first := scene.SwipedRight(50.0);
    assert scene.state == Play && scene.score == 0;
    assert scene.gameObjects == [first];
    assert first.start == Point(0.0, 50.0) && first.destination == Point(width, 50.0);
    assert scene.requests[1] == FadeOutDescription(0.5);

    scene.BlockFinished(first);
    var second := scene.SwipedLeft(80.0);
    assert scene.state == Play && scene.score == 1;
    assert scene.gameObjects == [second];
  }

  /** In Play at score 9, a block's completion takes the score to 10 and changes
      the theme; the next one, to 11, does not. */
  method TenthBlock(scene: GameScene, block: Sprite)
    requires scene.Valid() && scene.state == Play && scene.score == 9
    modifies scene
  {
    var log := scene.requests;
    scene.BlockFinished(block);
    assert scene.score == 10;
    assert scene.requests[|log|..][4] == ChangeBackgroundColor;

    log := scene.requests;
    scene.BlockFinished(block);
    assert scene.score == 11;
    assert scene.requests == log + [RemoveFromParent(block), ShakeCamera(0.4), PlaySound(LevelUp), SetScoreText(11)];
  }

  /** In Play, a contact ends the round, keeps the score, requests the game-over
      sound and the splash, and leaves nothing live; a second clear changes nothing. */
  method ContactInPlay(scene: GameScene)
    requires scene.Valid() && scene.state == Play
    modifies scene
  {
    var score, log := scene.score, scene.requests;
    scene.DidBeginContact();
    assert scene.state == Over && scene.score == score && scene.gameObjects == [];
    assert scene.requests[|log|] == PlaySound(GameOver);
    assert scene.requests[|log| + 1] == Splash(1.0);

    log := scene.requests;
    scene.ClearGameObjects();
    assert scene.requests == log;
  }
}
