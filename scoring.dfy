/** The basketball goal and its scoreboard: a ball touching the target inside
    the net scores two points, and the board shows the score as at least two
    decimal digits. */
module Scoring {
  import opened Physics

  /** Offsets from the goal's location of the post and of the scoring
      target, and of the board rectangle; the board's size. */
  const PostOffset: Point := Point(22, 0)
  const TargetOffset: Point := Point(-12, 165)
  const BoardOffset: Point := Point(5, 280)
  const BoardSize: Size := Size(30, 20)

  /** Points a basket is worth. */
  const BasketPoints := 2

  // ----- The score as text -----

  function DigitChar(d: nat): (c: char)
    requires d < 10
    ensures '0' <= c <= '9' && c as int - '0' as int == d
  {
    "0123456789"[d]
  }

  predicate IsDigits(s: string) {
    forall i :: 0 <= i < |s| ==> '0' <= s[i] <= '9'
  }

  /** The decimal numeral of `n`, without leading zeros. */
  function Decimal(n: nat): (s: string)
    ensures 1 <= |s| && IsDigits(s)
    ensures n >= 10 ==> s[0] != '0'
    ensures n < 10 <==> |s| == 1
  {
    if n < 10 then [DigitChar(n)] else Decimal(n / 10) + [DigitChar(n % 10)]
  }

  /** What `out << setw(2) << setfill('0') << score` writes: the signed
      decimal numeral, padded on the left with '0' up to two characters.
      The padding goes in front of a minus sign, but a negative numeral is
      never shorter than two characters. */
  function ScoreText(score: int): (s: string)
    ensures 2 <= |s|
    ensures 0 <= score < 100 ==> |s| == 2 && IsDigits(s)
    ensures score >= 10 ==> s[0] != '0'
    ensures score < 0 ==> s[0] == '-' && s[1] != '0'
  {
    var numeral := if score < 0 then "-" + Decimal(-score) else Decimal(score);
    if |numeral| < 2 then "0" + numeral else numeral
  }

  /** The value of a string of digits. */
  function DigitsValue(s: string): (n: nat)
    requires IsDigits(s)
  {
    if s == [] then 0 else 10 * DigitsValue(s[..|s| - 1]) + (s[|s| - 1] as int - '0' as int)
  }

  /** The value of a (possibly signed) score text. */
  function TextValue(s: string): int
    requires |s| >= 1
    requires IsDigits(s) || (s[0] == '-' && IsDigits(s[1..]))
  {
    if s[0] == '-' then -(DigitsValue(s[1..]) as int) else DigitsValue(s)
  }

  lemma {:induction false} DecimalValue(n: nat)
    ensures DigitsValue(Decimal(n)) == n
  {
    if n >= 10 {
      var s := Decimal(n);
      assert s[..|s| - 1] == Decimal(n / 10);
      DecimalValue(n / 10);
    }
  }

  /** Leading zeros do not change a value. */
  lemma {:induction false} LeadingZeroValue(s: string)
    requires IsDigits(s)
    ensures IsDigits("0" + s) && DigitsValue("0" + s) == DigitsValue(s)
    decreases |s|
  {
    if s != [] {
      assert ("0" + s)[..|"0" + s| - 1] == "0" + s[..|s| - 1];
      LeadingZeroValue(s[..|s| - 1]);
    }
  }

  /** The board text reads back as the score: nothing is lost by the
      padding. */
  lemma ScoreTextRoundTrip(score: int)
    ensures var s := ScoreText(score);
      (IsDigits(s) || (s[0] == '-' && IsDigits(s[1..]))) && TextValue(s) == score
  {
    if score < 0 {
      NegativeScoreText(score);
    } else {
      ScoreTextDigits(score);
    }
  }

  lemma NegativeScoreText(score: int)
    requires score < 0
    ensures var s := ScoreText(score);
      s[0] == '-' && IsDigits(s[1..]) && TextValue(s) == score
  {
    var s, d := ScoreText(score), Decimal(-score);
    DecimalValue(-score);
    assert s == "-" + d && s[1..] == d;
  }

  lemma ScoreTextDigits(score: int)
    requires score >= 0
    ensures var s := ScoreText(score); IsDigits(s) && DigitsValue(s) == score
  {
    var d := Decimal(score);
    DecimalValue(score);
    if score < 10 {
      LeadingZeroValue(d);
      assert ScoreText(score) == "0" + d;
    } else {
      assert ScoreText(score) == d;
    }
  }

  /** The texts the board shows for a few scores. */
  lemma ScoreTextExamples()
    ensures ScoreText(0) == "00" && ScoreText(4) == "04" && ScoreText(12) == "12"
    ensures ScoreText(100) == "100" && ScoreText(-3) == "-3"
  {
    assert Decimal(10) == Decimal(1) + "0";
    assert Decimal(100) == Decimal(10) + "0";
  }

  // ----- The classes -----

  class Scoreboard {
    var goal: BasketballGoal?
    var score: int

    constructor (score: int)
      ensures this.score == score && goal == null
    {
      this.score := score;
      goal := null;
    }

    function GetScore(): (n: int)
      reads this`score
      ensures n == score
    {
      score
    }

    method SetScore(score: int)
      modifies this`score
      ensures this.score == score && GetScore() == score
    {
      this.score := score;
    }

    method SetGoal(goal: BasketballGoal)
      modifies this`goal
      ensures this.goal == goal
    {
      this.goal := goal;
    }

    /** Where Draw paints the board: at an offset from its goal. */
    function Board(): (r: (Point, Size))
      requires goal != null
      reads this`goal, goal`location
      ensures r.0.x - goal.location.x == BoardOffset.x && r.0.y - goal.location.y == BoardOffset.y
      ensures r.1 == BoardSize
    {
      (goal.location.Plus(BoardOffset), BoardSize)
    }
  }

  class BasketballGoal {
    const scoreboard: Scoreboard
    var location: Point
    /** Initial positions of the post's and the target's physics polygons. */
    var post: Point
    var target: Point

    /** A new goal's board starts at zero and belongs to the goal. */
    constructor ()
      ensures fresh(scoreboard) && scoreboard.score == 0 && scoreboard.goal == this
      ensures location == Point(0, 0) && post == Point(0, 0) && target == Point(0, 0)
    {
      scoreboard := new Scoreboard(0);
      location := Point(0, 0);
      post := Point(0, 0);
      target := Point(0, 0);
      new;
      StartScoreboard();
    }

    method SetPosition(x: int, y: int)
      modifies this`location, this`post, this`target
      ensures location == Point(x, y)
      ensures post.x - x == PostOffset.x && post.y - y == PostOffset.y
      ensures target.x - x == TargetOffset.x && target.y - y == TargetOffset.y
    {
      location := Point(x, y);
      post := location.Plus(PostOffset);
      target := location.Plus(TargetOffset);
    }

    function GetPosition(): (p: Point)
      reads this`location
      ensures p == location
    {
      location
    }

    /** Between resets the board shows a whole number of baskets. */
    ghost predicate Counted()
      reads scoreboard`score
    {
      scoreboard.score >= 0 && scoreboard.score % BasketPoints == 0
    }

    /** A ball reached the target: two more points on the board. */
    method BeginContact()
      modifies scoreboard`score
      ensures scoreboard.score == old(scoreboard.score) + BasketPoints
      ensures old(Counted()) ==> Counted()
    {
      var score := scoreboard.GetScore();
      score := score + BasketPoints;
      scoreboard.SetScore(score);
    }

    /** Balls pass through the target. */
    method PreSolve(contact: Contact)
      modifies contact`enabled
      ensures !contact.enabled
    {
      contact.enabled := false;
    }

    /** Clear the board and attach it to this goal. */
    method StartScoreboard()
      modifies scoreboard`score, scoreboard`goal
      ensures scoreboard.score == 0 && scoreboard.goal == this && Counted()
    {
      scoreboard.SetScore(0);
      scoreboard.SetGoal(this);
    }

    /** Install the target (registered for contacts) and the post, then
        clear the board. */
    method SetPhysic(listen: ContactListener, world: World)
      modifies listen`observers, world`bodies, scoreboard`score, scoreboard`goal
      ensures listen.observers == old(listen.observers) + [this]
      ensures world.bodies == old(world.bodies) + 2
      ensures scoreboard.score == 0 && scoreboard.goal == this
    {
      world.CreateBody();
      listen.Add(this);
      world.CreateBody();
      StartScoreboard();
    }
  }
}
