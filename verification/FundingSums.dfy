/**
 The closed forms behind the pallet's running totals: sums over the voters of a project, and sums
 over the projects of a round.
 */
module FundingSums {
  import opened Sums
  import opened QuadraticFunding

  // ----- products and triangular numbers -----

  /** c added n times. */
  function Times(c: int, n: nat): int {
    if n == 0 then 0 else Times(c, n - 1) + c
  }

  lemma {:induction false} TimesIsProduct(c: int, n: nat)
    ensures Times(c, n) == c * n
  {
    if n > 0 {
      TimesIsProduct(c, n - 1);
    }
  }

  lemma TimesAdds(c: int, x: nat, y: nat)
    ensures Times(c, x + y) == Times(c, x) + Times(c, y)
  {
    TimesIsProduct(c, x);
    TimesIsProduct(c, y);
    TimesIsProduct(c, x + y);
    assert c * (x + y) == c * x + c * y;
  }

  /** The sum of the first v odd numbers. */
  function Squared(v: nat): nat {
    if v == 0 then 0 else Squared(v - 1) + 2 * v - 1
  }

  lemma {:induction false} SquaredIsProduct(v: nat)
    ensures Squared(v) == v * v
  {
    if v > 0 {
      SquaredIsProduct(v - 1);
    }
  }

  /** 1 + 2 + .. + v */
  function Triangle(v: nat): nat {
    if v == 0 then 0 else Triangle(v - 1) + v
  }

  lemma {:induction false} TwiceTriangle(v: nat)
    ensures 2 * Triangle(v) == v * (v + 1)
  {
    if v > 0 {
      TwiceTriangle(v - 1);
      assert v * (v + 1) == (v - 1) * v + 2 * v;
    }
  }

  /** A ballot costs the difference of two triangular numbers, so only the cumulative vote matters. */
  lemma CostIsTriangleStep(voted: nat, ballot: nat)
    ensures CalCost(voted, ballot) == Triangle(voted + ballot) - Triangle(voted)
  {
    TwiceTriangle(voted);
    TwiceTriangle(ballot);
    TwiceTriangle(voted + ballot);
    assert (voted + ballot) * (voted + ballot + 1) == voted * (voted + 1) + ballot * (ballot + 1) + 2 * (ballot * voted);
  }

  // ----- sums over voters -----

  datatype Score = Count | Square | Points

  function ScoreOf(f: Score, v: nat): nat {
    match f
    case Count => v
    case Square => Squared(v)
    case Points => Triangle(v)
  }

  /** The sum of f over the entries. */
  ghost function ScoreSum(m: map<VoteKey, nat>, f: Score): nat {
    if m == map[] then 0 else
      var k :| k in m;
      ScoreOf(f, m[k]) + ScoreSum(m - {k}, f)
  }

  lemma {:induction false} ScoreSumRemove(m: map<VoteKey, nat>, f: Score, k: VoteKey)
    requires k in m
    ensures ScoreSum(m, f) == ScoreOf(f, m[k]) + ScoreSum(m - {k}, f)
    decreases |m|
  {
    var j :| j in m && ScoreSum(m, f) == ScoreOf(f, m[j]) + ScoreSum(m - {j}, f);
    if j != k {
      ScoreSumRemove(m - {j}, f, k);
      ScoreSumRemove(m - {k}, f, j);
      assert m - {j} - {k} == m - {k} - {j};
    }
  }

  lemma ScoreSumUpdate(m: map<VoteKey, nat>, f: Score, k: VoteKey, v: nat)
    ensures ScoreSum(m[k := v], f) == ScoreSum(m, f) + ScoreOf(f, v) - if k in m then ScoreOf(f, m[k]) else 0
  {
    ScoreSumRemove(m[k := v], f, k);
    if k in m {
      ScoreSumRemove(m, f, k);
      assert m[k := v] - {k} == m - {k};
    } else {
      assert m[k := v] - {k} == m;
    }
  }

  /** Counting is summing, and summing squares is summing the square of every entry. */
  lemma {:induction false} ScoreSumsAreSums(m: map<VoteKey, nat>)
    ensures ScoreSum(m, Count) == SumMap(m)
    ensures ScoreSum(m, Square) == SumMap(SquareMap(m))
    decreases |m|
  {
    if m != map[] {
      var k :| k in m;
      ScoreSumRemove(m, Count, k);
      ScoreSumRemove(m, Square, k);
      SumMapRemove(m, k);
      SumMapRemove(SquareMap(m), k);
      assert SquareMap(m) - {k} == SquareMap(m - {k});
      ScoreSumsAreSums(m - {k});
    }
  }

  /** The votes on one project. */
  function OnProject(votes: map<VoteKey, nat>, key: ProjectKey): map<VoteKey, nat> {
    map k | k in votes && k.0 == key :: votes[k]
  }

  /** The sum of f over the cumulative votes of everybody who voted on the project. */
  ghost function ProjectSum(votes: map<VoteKey, nat>, key: ProjectKey, f: Score): nat {
    ScoreSum(OnProject(votes, key), f)
  }

  /** The votes on all projects of one round. */
  function InRound(votes: map<VoteKey, nat>, r: nat): map<VoteKey, nat> {
    map k | k in votes && k.0.0 == r :: votes[k]
  }

  /** The triangular numbers of all cumulative votes on all projects of the round. */
  ghost function RoundPoints(votes: map<VoteKey, nat>, r: nat): nat {
    ScoreSum(InRound(votes, r), Points)
  }

  lemma ProjectSumAfterVote(votes: map<VoteKey, nat>, k: VoteKey, v: nat, key: ProjectKey, f: Score)
    ensures ProjectSum(votes[k := v], key, f)
            == ProjectSum(votes, key, f) + if k.0 == key then ScoreOf(f, v) - ScoreOf(f, VotesOf(votes, k)) else 0
  {
    var m := OnProject(votes, key);
    if k.0 == key {
      ScoreSumUpdate(m, f, k, v);
      assert OnProject(votes[k := v], key) == m[k := v];
    } else {
      assert OnProject(votes[k := v], key) == m;
    }
  }

  lemma RoundPointsAfterVote(votes: map<VoteKey, nat>, k: VoteKey, v: nat, r: nat)
    ensures RoundPoints(votes[k := v], r)
            == RoundPoints(votes, r) + if k.0.0 == r then ScoreOf(Points, v) - ScoreOf(Points, VotesOf(votes, k)) else 0
  {
    var m := InRound(votes, r);
    if k.0.0 == r {
      ScoreSumUpdate(m, Points, k, v);
      assert InRound(votes[k := v], r) == m[k := v];
    } else {
      assert InRound(votes[k := v], r) == m;
    }
  }

  /** A ballot's cost is what it adds to the points of its project and of its round. */
  lemma CostIsPointsAdded(votes: map<VoteKey, nat>, k: VoteKey, ballot: nat)
    ensures var votes' := votes[k := VotesOf(votes, k) + ballot];
            && ProjectSum(votes', k.0, Points) == ProjectSum(votes, k.0, Points) + CalCost(VotesOf(votes, k), ballot)
            && RoundPoints(votes', k.0.0) == RoundPoints(votes, k.0.0) + CalCost(VotesOf(votes, k), ballot)
  {
    var v := VotesOf(votes, k) + ballot;
    CostIsTriangleStep(VotesOf(votes, k), ballot);
    assert CalCost(VotesOf(votes, k), ballot) == ScoreOf(Points, v) - ScoreOf(Points, VotesOf(votes, k));
    ProjectSumAfterVote(votes, k, v, k.0, Points);
    RoundPointsAfterVote(votes, k, v, k.0.0);
  }

  /** A vote leaves the sums of the other projects alone. */
  lemma OtherProjectSums(votes: map<VoteKey, nat>, k: VoteKey, v: nat, key: ProjectKey)
    requires k.0 != key
    ensures ProjectSum(votes[k := v], key, Count) == ProjectSum(votes, key, Count)
    ensures ProjectSum(votes[k := v], key, Square) == ProjectSum(votes, key, Square)
    ensures ProjectSum(votes[k := v], key, Points) == ProjectSum(votes, key, Points)
  {
    ProjectSumAfterVote(votes, k, v, key, Count);
    ProjectSumAfterVote(votes, k, v, key, Square);
    ProjectSumAfterVote(votes, k, v, key, Points);
  }

  /** And the sums of the other rounds. */
  lemma OtherRoundSums(votes: map<VoteKey, nat>, projects: map<ProjectKey, Project>, k: VoteKey, v: nat, p: Project, r: nat)
    requires k.0.0 != r
    ensures RoundPoints(votes[k := v], r) == RoundPoints(votes, r)
    ensures AreaOf(projects[k.0 := p], r) == AreaOf(projects, r)
    ensures GrantsOf(projects[k.0 := p], r) == GrantsOf(projects, r)
  {
    RoundPointsAfterVote(votes, k, v, r);
    RoundSumsAfterUpdate(projects, k.0, p, r);
  }

  /** One voter's votes are among all votes. */
  lemma VoteAtMostTotal(votes: map<VoteKey, nat>, k: VoteKey)
    ensures VotesOf(votes, k) <= ProjectSum(votes, k.0, Count)
  {
    if k in votes {
      ScoreSumRemove(OnProject(votes, k.0), Count, k);
    }
  }

  // ----- sums over projects -----

  datatype Figure = Area | Grants

  function FigureOf(f: Figure, p: Project): nat {
    match f
    case Area => p.supportArea
    case Grants => p.grants
  }

  /** The sum of f over the projects of the round. */
  ghost function RoundSum(projects: map<ProjectKey, Project>, r: nat, f: Figure): nat {
    if projects == map[] then 0 else
      var key :| key in projects;
      (if key.0 == r then FigureOf(f, projects[key]) else 0) + RoundSum(projects - {key}, r, f)
  }

  ghost function AreaOf(projects: map<ProjectKey, Project>, r: nat): nat {
    RoundSum(projects, r, Area)
  }

  ghost function GrantsOf(projects: map<ProjectKey, Project>, r: nat): nat {
    RoundSum(projects, r, Grants)
  }

  lemma {:induction false} RoundSumRemove(projects: map<ProjectKey, Project>, r: nat, f: Figure, key: ProjectKey)
    requires key in projects
    ensures RoundSum(projects, r, f)
            == (if key.0 == r then FigureOf(f, projects[key]) else 0) + RoundSum(projects - {key}, r, f)
    decreases |projects|
  {
    var j :| j in projects && RoundSum(projects, r, f)
      == (if j.0 == r then FigureOf(f, projects[j]) else 0) + RoundSum(projects - {j}, r, f);
    if j != key {
      RoundSumRemove(projects - {j}, r, f, key);
      RoundSumRemove(projects - {key}, r, f, j);
      assert projects - {j} - {key} == projects - {key} - {j};
    }
  }

  lemma RoundSumUpdate(projects: map<ProjectKey, Project>, r: nat, f: Figure, key: ProjectKey, p: Project)
    ensures RoundSum(projects[key := p], r, f)
            == RoundSum(projects, r, f)
               + if key.0 == r then FigureOf(f, p) - (if key in projects then FigureOf(f, projects[key]) else 0) else 0
  {
    RoundSumRemove(projects[key := p], r, f, key);
    if key in projects {
      RoundSumRemove(projects, r, f, key);
      assert projects[key := p] - {key} == projects - {key};
    } else {
      assert projects[key := p] - {key} == projects;
    }
  }

  lemma {:induction false} RoundSumOfZeros(projects: map<ProjectKey, Project>, r: nat, f: Figure)
    requires forall key :: key in projects && key.0 == r ==> FigureOf(f, projects[key]) == 0
    ensures RoundSum(projects, r, f) == 0
    decreases |projects|
  {
    if projects != map[] {
      var key :| key in projects;
      RoundSumRemove(projects, r, f, key);
      RoundSumOfZeros(projects - {key}, r, f);
    }
  }

  lemma GrantsAfterUpdate(projects: map<ProjectKey, Project>, key: ProjectKey, p: Project, r: nat)
    ensures var before := if key in projects then projects[key].grants else 0;
            GrantsOf(projects[key := p], r) == GrantsOf(projects, r) + if key.0 == r then p.grants - before else 0
  {
    RoundSumUpdate(projects, r, Grants, key, p);
  }

  lemma RoundSumsAfterUpdate(projects: map<ProjectKey, Project>, key: ProjectKey, p: Project, r: nat)
    ensures var area0 := if key in projects then projects[key].supportArea else 0;
            AreaOf(projects[key := p], r) == AreaOf(projects, r) + if key.0 == r then p.supportArea - area0 else 0
    ensures var grants0 := if key in projects then projects[key].grants else 0;
            GrantsOf(projects[key := p], r) == GrantsOf(projects, r) + if key.0 == r then p.grants - grants0 else 0
  {
    RoundSumUpdate(projects, r, Area, key, p);
    GrantsAfterUpdate(projects, key, p, r);
  }

  // ----- pairs of voters -----

  function Crossed<K>(m: map<K, nat>, k: K): map<K, nat> {
    m - {k}
  }

  function Product(x: nat, y: nat): nat {
    x * y
  }

  /** Each entry times the sum of all the others. */
  ghost function CrossMap<K>(m: map<K, nat>): map<K, nat> {
    map k | k in m :: Product(m[k], SumMap(Crossed(m, k)))
  }

  /** The products of all ordered pairs of different entries: twice the sum over unordered pairs. */
  ghost function CrossSum<K>(m: map<K, nat>): nat {
    SumMap(CrossMap(m))
  }

  ghost function SquareMap<K>(m: map<K, nat>): map<K, nat> {
    map k | k in m :: Squared(m[k])
  }

  lemma SplitProduct(total: nat, x: nat)
    requires x <= total
    ensures Product(total, x) == Product(x, total - x) + Squared(x)
  {
    SquaredIsProduct(x);
  }

  ghost function ScaledMap<K>(m: map<K, nat>, c: nat): map<K, nat> {
    map k | k in m :: Product(c, m[k])
  }

  lemma ScaledSum<K>(m: map<K, nat>, c: nat)
    ensures SumMap(ScaledMap(m, c)) == Product(c, SumMap(m))
  {
    SumMapScale(m, ScaledMap(m, c), c);
  }

  lemma CrossTerm<K>(m: map<K, nat>, k: K)
    requires k in m
    ensures Product(SumMap(m), m[k]) == Product(m[k], SumMap(Crossed(m, k))) + Squared(m[k])
  {
    SumMapRemove(m, k);
    SplitProduct(SumMap(m), m[k]);
  }

  /** The pair sum is the square of the sum less the sum of the squares. */
  lemma CrossSumAndSquares<K>(m: map<K, nat>)
    ensures CrossSum(m) + SumMap(SquareMap(m)) == Squared(SumMap(m))
  {
    var scaled := ScaledMap(m, SumMap(m));
    forall k | k in m
      ensures scaled[k] == CrossMap(m)[k] + SquareMap(m)[k]
    {
      CrossTerm(m, k);
    }
    SumMapPlus(CrossMap(m), SquareMap(m), scaled);
    ScaledSum(m, SumMap(m));
    SquaredIsProduct(SumMap(m));
  }

  lemma PositiveProduct(x: nat, y: nat)
    requires 0 < x && 0 < y
    ensures 0 < Product(x, y)
  {
    assert Product(x, y) == Product(x - 1, y) + y;
  }

  ghost predicate TwoEntries<K(!new)>(m: map<K, nat>) {
    exists a, b :: a in m && b in m && a != b
  }

  /** With positive entries the pair sum is zero exactly when there are no two entries. */
  lemma CrossSumZeroIff<K(!new)>(m: map<K, nat>)
    requires forall k :: k in m ==> 0 < m[k]
    ensures CrossSum(m) == 0 <==> !TwoEntries(m)
  {
    if TwoEntries(m) {
      var a, b :| a in m && b in m && a != b;
      SumMapAtLeast(Crossed(m, a), b);
      PositiveProduct(m[a], SumMap(Crossed(m, a)));
      SumMapAtLeast(CrossMap(m), a);
    } else {
      forall k | k in m
        ensures CrossMap(m)[k] == 0
      {
        assert Crossed(m, k) == map[];
      }
      AllZero(CrossMap(m));
    }
  }

  lemma {:induction false} AllZero<K>(m: map<K, nat>)
    requires forall k :: k in m ==> m[k] == 0
    ensures SumMap(m) == 0
    decreases |m|
  {
    if m != map[] {
      var k :| k in m;
      SumMapRemove(m, k);
      AllZero(m - {k});
    }
  }

  // ----- a loop over the projects of a round, in any order -----

  lemma {:induction false} EnumerationSum(projects: map<ProjectKey, Project>, r: nat, f: Figure, order: seq<Hash>,
                                          s: seq<int>)
    requires |s| == |order|
    requires forall i, j :: 0 <= i < j < |order| ==> order[i] != order[j]
    requires forall i :: 0 <= i < |order| ==> (r, order[i]) in projects && s[i] == FigureOf(f, projects[(r, order[i])])
    requires forall key :: key in projects && key.0 == r ==> key.1 in order
    ensures SumSeq(s) == RoundSum(projects, r, f)
  {
    var n := |order| - 1;
    if n < 0 {
      RoundSumOfZeros(projects, r, f);
    } else {
      var last := (r, order[n]);
      RoundSumRemove(projects, r, f, last);
      var rest := projects - {last};
      forall key | key in rest && key.0 == r
        ensures key.1 in order[..n]
      {
        assert key.1 in order && key != last;
      }
      EnumerationSum(rest, r, f, order[..n], s[..n]);
    }
  }
}
