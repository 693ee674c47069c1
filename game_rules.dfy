/** The round state machine of the scene: which of Menu, Play and Over it is in,
    the score, and how the four kinds of event move them. */
module Rules {

  datatype GameState = Menu | Play | Over

  /** What reaches the scene: a swipe (left or right alike), a block ("marker")
      finishing its traversal, an enemy finishing its traversal, a frame tick, and a
      physics contact. */
  datatype Event = Swipe | BlockDone | EnemyDone | Tick | Contact

  datatype Round = Round(state: GameState, score: int)

  /** One event's effect on state and score. */
  function Step(r: Round, e: Event): (n: Round)
    ensures r.score >= 0 ==> n.score >= 0
    ensures n.state == Over <==> e == Contact || (r.state == Over && e != Swipe)
    ensures n.state == Play <==> e == Swipe || (r.state == Play && e != Contact)
    ensures e == Swipe && r.state != Play ==> n.score == 0
    ensures e == BlockDone ==> n.score == r.score + 1
    ensures n.score != r.score ==>
              (e == BlockDone && n.score == r.score + 1) ||
              (e == Swipe && r.state != Play && n.score == 0)
  {
    match e
    case Swipe => if r.state != Play then Round(Play, 0) else r
    case BlockDone => Round(r.state, r.score + 1)
    case EnemyDone => r
    case Tick => r
    case Contact => Round(Over, r.score)
  }

  /** The round after a whole sequence of events, in arrival order. */
  function Run(r: Round, es: seq<Event>): Round
    decreases |es|
  {
    if es == [] then r else Step(Run(r, es[..|es| - 1]), es[|es| - 1])
  }

  /** The score is never negative: the only writes are a reset to 0 and `++`. */
  lemma {:induction false} RunKeepsScoreNonNegative(r: Round, es: seq<Event>)
    requires r.score >= 0
    ensures Run(r, es).score >= 0
    decreases |es|
  {
    if es != [] {
      RunKeepsScoreNonNegative(r, es[..|es| - 1]);
    }
  }

  predicate NoSwipe(es: seq<Event>) {
    forall j :: 0 <= j < |es| ==> es[j] != Swipe
  }

  /** Event `i` is a contact and no swipe follows it. */
  predicate ContactNotUndone(es: seq<Event>, i: int) {
    0 <= i < |es| && es[i] == Contact && NoSwipe(es[i + 1..])
  }

  lemma NoSwipeSnoc(q: seq<Event>, e: Event)
    ensures NoSwipe(q + [e]) <==> NoSwipe(q) && e != Swipe
  {
    assert forall j :: 0 <= j < |q| ==> (q + [e])[j] == q[j];
    assert (q + [e])[|q|] == e;
  }

  lemma ContactNotUndoneSnoc(p: seq<Event>, e: Event, i: int)
    requires e != Swipe && 0 <= i < |p|
    ensures ContactNotUndone(p + [e], i) <==> ContactNotUndone(p, i)
  {
    assert (p + [e])[i + 1..] == p[i + 1..] + [e];
    NoSwipeSnoc(p[i + 1..], e);
  }

  /** A round ends up in Over exactly when a contact arrived with no swipe after it
      (or it was already Over and no swipe came at all). */
  lemma {:induction false} RunEndsOver(r: Round, es: seq<Event>)
    ensures Run(r, es).state == Over <==>
              (exists i :: ContactNotUndone(es, i)) || (r.state == Over && NoSwipe(es))
    decreases |es|
  {
    if es != [] {
      var p, e := es[..|es| - 1], es[|es| - 1];
      assert es == p + [e];
      RunEndsOver(r, p);
      NoSwipeSnoc(p, e);
      if e == Swipe {
        // the final swipe puts the round in Play and undoes every earlier contact
      } else if e == Contact {
        assert es[|es| - 1 + 1..] == [];
        assert ContactNotUndone(es, |es| - 1);
      } else {
        forall i | 0 <= i < |p|
          ensures ContactNotUndone(es, i) <==> ContactNotUndone(p, i)
        {
          ContactNotUndoneSnoc(p, e, i);
        }
        assert !ContactNotUndone(es, |es| - 1);
      }
    }
  }

  /** Only a contact leads into Over. */
  lemma OverOnlyByContact(r: Round, es: seq<Event>)
    requires r.state != Over
    requires Run(r, es).state == Over
    ensures Contact in es
  {
    RunEndsOver(r, es);
  }

  /** Only a swipe leads into Play. */
  lemma {:induction false} PlayOnlyBySwipe(r: Round, es: seq<Event>)
    requires r.state != Play
    requires Run(r, es).state == Play
    ensures Swipe in es
    decreases |es|
  {
    var p, e := es[..|es| - 1], es[|es| - 1];
    if e != Swipe {
      PlayOnlyBySwipe(r, p);
      assert es == p + [e];
    }
  }

  /** Within a round that is not interrupted by a contact, swipes do not reset the
      score and every completed block adds exactly one point; enemies add nothing. */
  lemma {:induction false} RunScoreInPlay(r: Round, es: seq<Event>)
    requires r.state == Play
    requires Contact !in es
    ensures Run(r, es) == Round(Play, r.score + multiset(es)[BlockDone])
    decreases |es|
  {
    if es != [] {
      var p, e := es[..|es| - 1], es[|es| - 1];
      assert es == p + [e];
      RunScoreInPlay(r, p);
    }
  }

  /** Completing a block requests a theme (background colour) change exactly when the
      new score is a multiple of 10. */
  predicate ThemeChangeDue(score: int) {
    score % 10 == 0
  }

  /** How many theme changes `n` block completions request, starting at `score`. */
  function ThemeChanges(score: int, n: nat): nat {
    if n == 0 then 0
    else ThemeChanges(score, n - 1) + if ThemeChangeDue(score + n) then 1 else 0
  }

  lemma NextMultipleOfTen(m: int)
    ensures (m + 1) / 10 == m / 10 + if (m + 1) % 10 == 0 then 1 else 0
  {
  }

  /** From any score, `n` completions request one theme change per multiple of 10
      crossed: 9 -> 10 fires and 10 -> 11 does not. */
  lemma {:induction false} ThemeChangesCount(score: int, n: nat)
    ensures ThemeChanges(score, n) == (score + n) / 10 - score / 10
  {
    if n > 0 {
      ThemeChangesCount(score, n - 1);
      NextMultipleOfTen(score + n - 1);
    }
  }
}
