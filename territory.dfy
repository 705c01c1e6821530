/**
 * The territory rule of the capture manager: a full recount of the active
 * stones that lie inside the circular zone centred on the origin, one counter
 * per player group, with a komi of one half point for the second player.
 *
 * Positions and scores are exact reals here; the game keeps them in 32-bit
 * floats.
 */
module Territory {

  /** One entry of the active-stone list, as the recount sees it. */
  datatype Stone = Stone(
    valid: bool,  // the handle still refers to a live instance
    x: real,      // global position
    y: real,
    inP1: bool,   // member of group "P1"
    inP2: bool    // member of group "P2" (independent of inP1)
  )

  /** The two scores published after a recount. */
  datatype Score = Score(p1: real, p2: real)

  datatype Team = P1 | P2

  /** Offset the second player's counter starts from on every recount. */
  const Komi: real := 0.5

  predicate InGroup(s: Stone, team: Team) {
    match team
    case P1 => s.inP1
    case P2 => s.inP2
  }

  /** Inside the zone: squared distance from the origin at most radius squared. */
  predicate InZone(s: Stone, radius: real) {
    s.x * s.x + s.y * s.y <= radius * radius
  }

  /** Whether one stone adds a point to `team`'s counter. */
  predicate Counted(s: Stone, radius: real, team: Team) {
    s.valid && InZone(s, radius) && InGroup(s, team)
  }

  /** Number of stones in `stones` that add a point to `team`'s counter. */
  function Tally(stones: seq<Stone>, radius: real, team: Team): (n: nat)
    ensures n <= |stones|
  {
    if stones == [] then 0
    else (if Counted(stones[0], radius, team) then 1 else 0) + Tally(stones[1..], radius, team)
  }

  /** The score pair a recount over `stones` with zone radius `radius` publishes. */
  function TerritoryScore(stones: seq<Stone>, radius: real): (r: Score)
    ensures 0.0 <= r.p1 <= |stones| as real
    ensures Komi <= r.p2 <= Komi + |stones| as real
  {
    Score(Tally(stones, radius, P1) as real, Komi + Tally(stones, radius, P2) as real)
  }

  /** Tallies of a concatenation add up. */
  lemma {:induction false} TallyAppend(a: seq<Stone>, b: seq<Stone>, radius: real, team: Team)
    ensures Tally(a + b, radius, team) == Tally(a, radius, team) + Tally(b, radius, team)
  {
    if a == [] {
      assert a + b == b;
    } else {
      assert (a + b)[1..] == a[1..] + b;
      TallyAppend(a[1..], b, radius, team);
    }
  }

  /** A single stone at any position in the list adds exactly its own contribution. */
  lemma Contribution(a: seq<Stone>, t: Stone, b: seq<Stone>, radius: real, team: Team)
    ensures Tally(a + [t] + b, radius, team)
         == Tally(a + b, radius, team) + (if Counted(t, radius, team) then 1 else 0)
  {
    TallyAppend(a + [t], b, radius, team);
    TallyAppend(a, [t], radius, team);
    TallyAppend(a, b, radius, team);
  }

  /** Removing the element at index `j` removes one occurrence of it from the multiset. */
  lemma RemoveAt(b: seq<Stone>, j: nat)
    requires j < |b|
    ensures b == b[..j] + [b[j]] + b[j + 1..]
    ensures multiset(b[..j] + b[j + 1..]) == multiset(b) - multiset{b[j]}
  {
  }

  /** An element of the multiset of `b` sits at some index of `b`. */
  lemma IndexOf(b: seq<Stone>, t: Stone) returns (j: nat)
    requires t in multiset(b)
    ensures j < |b| && b[j] == t
  {
    j :| j < |b| && b[j] == t;
  }

  /** The recount is order independent: any permutation of the stones gives the same tally. */
  lemma {:induction false} TallyPermutation(a: seq<Stone>, b: seq<Stone>, radius: real, team: Team)
    requires multiset(a) == multiset(b)
    ensures Tally(a, radius, team) == Tally(b, radius, team)
  {
    if a == [] {
      assert |b| == |multiset(b)| == 0;
    } else {
      assert a == [a[0]] + a[1..];
      var j := IndexOf(b, a[0]);
      RemoveAt(b, j);
      TallyPermutation(a[1..], b[..j] + b[j + 1..], radius, team);
      Contribution(b[..j], b[j], b[j + 1..], radius, team);
    }
  }

  /** Reordering the active-stone list does not change the published scores. */
  lemma ScoreReorder(a: seq<Stone>, b: seq<Stone>, radius: real)
    requires multiset(a) == multiset(b)
    ensures TerritoryScore(a, radius) == TerritoryScore(b, radius)
  {
    TallyPermutation(a, b, radius, P1);
    TallyPermutation(a, b, radius, P2);
  }

  /**
   * Appending one stone raises each counter by one exactly when the stone is
   * valid, inside the zone (boundary included) and in that counter's group;
   * the two groups are tested independently.
   */
  lemma ScoreAppendStone(s: seq<Stone>, t: Stone, radius: real)
    ensures TerritoryScore(s + [t], radius).p1
         == TerritoryScore(s, radius).p1 + (if t.valid && InZone(t, radius) && t.inP1 then 1.0 else 0.0)
    ensures TerritoryScore(s + [t], radius).p2
         == TerritoryScore(s, radius).p2 + (if t.valid && InZone(t, radius) && t.inP2 then 1.0 else 0.0)
  {
    TallyAppend(s, [t], radius, P1);
    TallyAppend(s, [t], radius, P2);
  }

  /** A stone in both groups inside the zone increments both counters. */
  lemma BothGroupsCountTwice(s: seq<Stone>, t: Stone, radius: real)
    requires t.valid && InZone(t, radius) && t.inP1 && t.inP2
    ensures TerritoryScore(s + [t], radius)
         == Score(TerritoryScore(s, radius).p1 + 1.0, TerritoryScore(s, radius).p2 + 1.0)
  {
    ScoreAppendStone(s, t, radius);
  }

  /** A stone at distance exactly `radius` is inside the zone and is counted. */
  lemma BoundaryIsInside(s: seq<Stone>, t: Stone, radius: real)
    requires t.valid && t.inP1 && t.x * t.x + t.y * t.y == radius * radius
    ensures TerritoryScore(s + [t], radius).p1 == TerritoryScore(s, radius).p1 + 1.0
  {
    ScoreAppendStone(s, t, radius);
  }

  /** An invalid stone contributes nothing, wherever it is in the list and wherever it lies. */
  lemma InvalidStoneIgnored(a: seq<Stone>, t: Stone, b: seq<Stone>, radius: real)
    requires !t.valid
    ensures TerritoryScore(a + [t] + b, radius) == TerritoryScore(a + b, radius)
  {
    Contribution(a, t, b, radius, P1);
    Contribution(a, t, b, radius, P2);
  }

  /** A stone strictly outside the zone changes neither counter, whatever its groups. */
  lemma OutsideStoneIgnored(a: seq<Stone>, t: Stone, b: seq<Stone>, radius: real)
    requires t.x * t.x + t.y * t.y > radius * radius
    ensures TerritoryScore(a + [t] + b, radius) == TerritoryScore(a + b, radius)
  {
    Contribution(a, t, b, radius, P1);
    Contribution(a, t, b, radius, P2);
  }

  /** A team's tally is zero exactly when no stone in the list counts for that team. */
  lemma {:induction false} TallyZeroIff(stones: seq<Stone>, radius: real, team: Team)
    ensures Tally(stones, radius, team) == 0
        <==> forall i :: 0 <= i < |stones| ==> !Counted(stones[i], radius, team)
  {
    if stones != [] {
      TallyZeroIff(stones[1..], radius, team);
      assert forall i :: 1 <= i < |stones| ==> stones[i] == stones[1..][i - 1];
    }
  }

  /**
   * A team with no counted stone in the zone scores exactly its starting
   * value, 0 for P1 and the komi for P2, whatever the other team has there;
   * and only then.
   */
  lemma EmptyZoneScore(stones: seq<Stone>, radius: real)
    ensures TerritoryScore(stones, radius).p1 == 0.0
        <==> forall i :: 0 <= i < |stones| ==> !Counted(stones[i], radius, P1)
    ensures TerritoryScore(stones, radius).p2 == Komi
        <==> forall i :: 0 <= i < |stones| ==> !Counted(stones[i], radius, P2)
  {
    TallyZeroIff(stones, radius, P1);
    TallyZeroIff(stones, radius, P2);
  }

  /** Zone radius 3, a P1 stone at (1, 0) and a P2 stone at (5, 0): scores 1 and the komi alone. */
  lemma ExampleZoneScores()
    ensures TerritoryScore([Stone(true, 1.0, 0.0, true, false), Stone(true, 5.0, 0.0, false, true)], 3.0)
         == Score(1.0, 0.5)
  {
  }
}
