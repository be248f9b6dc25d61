/**
 * The scoring engine of calc.py: the bonus/malus of a player's match events,
 * the defence, midfield and attack modifiers of a side, the score-to-goals
 * table, and the aggregator that turns two lineups into a match result.
 *
 * Ratings are exact `real`s; the source's floats and its `round(x, 2)` on the
 * displayed fields are not modelled (goals are always computed from the
 * unrounded scores).
 */
module Calc {
  import opened Options
  import opened Text

  // ===========================================================================
  // Roles and events
  // ===========================================================================

  /**
   * A lineup role. Only the exact codes "P", "D", "C" and "A" select a role
   * rule; any other code is kept as `OtherRole` and only adds to the team sum.
   * A lineup entry carries `RoleOf` of its code, so an `OtherRole` never holds
   * one of the four codes (`CanonicalRole`).
   */
  datatype Role = Goalkeeper | Defender | Midfielder | Attacker | OtherRole(code: string)

  /** The roles `RoleOf` produces: an `OtherRole` never holds one of the four codes. */
  predicate CanonicalRole(r: Role) {
    r.OtherRole? ==> r.code != "P" && r.code != "D" && r.code != "C" && r.code != "A"
  }

  /** The code a role is read from, as stored in the lineup's `ruolo` field. */
  function CodeOf(r: Role): string {
    match r
    case Goalkeeper => "P"
    case Defender => "D"
    case Midfielder => "C"
    case Attacker => "A"
    case OtherRole(code) => code
  }

  /** The role a code selects: exact, case-sensitive comparison as in `ruolo == 'P'`. */
  function RoleOf(code: string): (r: Role)
    ensures r == Goalkeeper <==> code == "P"
    ensures r == Defender <==> code == "D"
    ensures r == Midfielder <==> code == "C"
    ensures r == Attacker <==> code == "A"
    ensures r.OtherRole? ==> r.code == code
  {
    if code == "P" then Goalkeeper
    else if code == "D" then Defender
    else if code == "C" then Midfielder
    else if code == "A" then Attacker
    else OtherRole(code)
  }

  /**
   * Codes and canonical roles are in one-to-one correspondence: reading a
   * code and writing it back gives the code, and every canonical role is
   * read from its own code.
   */
  lemma RoleCodeRoundTrip(code: string, r: Role)
    ensures CanonicalRole(RoleOf(code)) && CodeOf(RoleOf(code)) == code
    ensures CanonicalRole(r) ==> RoleOf(CodeOf(r)) == r
  {
  }

  /** Event counts of one player in one match (Python ints, not checked for sign). */
  datatype MatchEvents = MatchEvents(
    goalsScored: int,
    goalsConceded: int,
    penaltiesSaved: int,
    penaltiesScored: int,
    penaltiesMissed: int,
    ownGoals: int,
    yellowCards: int,
    redCards: int,
    assists: int)

  const NoEvents := MatchEvents(0, 0, 0, 0, 0, 0, 0, 0, 0)

  // ===========================================================================
  // Bonus/malus from events
  // ===========================================================================

  /** The rule table that applies to every role, as a weighted sum of the counts. */
  function OutfieldBonus(e: MatchEvents): real {
    3.0 * e.goalsScored as real + 1.0 * e.assists as real
    + 3.0 * e.penaltiesScored as real + 3.0 * e.penaltiesSaved as real
    - 3.0 * e.penaltiesMissed as real - 2.0 * e.ownGoals as real
    - 0.5 * e.yellowCards as real - 1.0 * e.redCards as real
  }

  /** The goalkeeper-only rules: -1 per goal conceded, +1 for a clean sheet. */
  function KeeperBonus(goalsConceded: int): real {
    -(goalsConceded as real) + (if goalsConceded == 0 then 1.0 else 0.0)
  }

  /** Specification of the bonus/malus of a player with events `e` in role `role`. */
  function EventBonus(e: MatchEvents, role: Role): real {
    OutfieldBonus(e) + (if role == Goalkeeper then KeeperBonus(e.goalsConceded) else 0.0)
  }

  /** Accumulates the bonus/malus rule by rule, in the order of calc.py. */
  method ComputeEventBonus(e: MatchEvents, role: Role) returns (bonusMalus: real)
    ensures bonusMalus == EventBonus(e, role)
  {
    bonusMalus := 0.0;
    bonusMalus := bonusMalus + (e.goalsScored * 3) as real;
    bonusMalus := bonusMalus + (e.assists * 1) as real;
    bonusMalus := bonusMalus + (e.penaltiesScored * 3) as real;
    bonusMalus := bonusMalus + (e.penaltiesSaved * 3) as real;
    bonusMalus := bonusMalus - (e.penaltiesMissed * 3) as real;
    bonusMalus := bonusMalus - (e.ownGoals * 2) as real;
    bonusMalus := bonusMalus - e.yellowCards as real * 0.5;
    bonusMalus := bonusMalus - (e.redCards * 1) as real;
    if role == Goalkeeper {
      bonusMalus := bonusMalus - (e.goalsConceded * 1) as real;
      if e.goalsConceded == 0 {
        bonusMalus := bonusMalus + 1.0;
      }
    }
  }

  /** Outside the goalkeeper role, goals conceded play no part at all. */
  lemma ConcededIgnoredOutsideGoal(e: MatchEvents, role: Role, conceded: int)
    requires role != Goalkeeper
    ensures EventBonus(e.(goalsConceded := conceded), role) == EventBonus(e, role) == OutfieldBonus(e)
  {
  }

  /**
   * For a goalkeeper (with a non-negative count) the keeper rules add at most
   * +1 over the outfield table, exactly +1 precisely on a clean sheet, and
   * something negative precisely when a goal was conceded.
   */
  lemma CleanSheetBonus(e: MatchEvents)
    requires e.goalsConceded >= 0
    ensures EventBonus(e, Goalkeeper) <= OutfieldBonus(e) + 1.0
    ensures EventBonus(e, Goalkeeper) == OutfieldBonus(e) + 1.0 <==> e.goalsConceded == 0
    ensures EventBonus(e, Goalkeeper) < OutfieldBonus(e) <==> e.goalsConceded > 0
  {
  }

  /** The five worked values of the event table. */
  lemma EventBonusExamples()
    ensures EventBonus(NoEvents.(goalsScored := 2, assists := 1), Attacker) == 7.0
    ensures EventBonus(NoEvents.(goalsScored := 1, yellowCards := 1, redCards := 1), Midfielder) == 1.5
    ensures EventBonus(NoEvents.(goalsConceded := 2), Goalkeeper) == -2.0
    ensures EventBonus(NoEvents.(penaltiesSaved := 1), Goalkeeper) == 4.0
    ensures EventBonus(NoEvents.(ownGoals := 1, penaltiesMissed := 1), Defender) == -5.0
  {
  }

  // ===========================================================================
  // Sums
  // ===========================================================================

  /** Python's `sum(xs)` over ratings. */
  function Sum(xs: seq<real>): real {
    if xs == [] then 0.0 else Sum(xs[..|xs| - 1]) + xs[|xs| - 1]
  }

  /** Summing is additive over concatenation. */
  lemma {:induction false} SumAppend(a: seq<real>, b: seq<real>)
    ensures Sum(a + b) == Sum(a) + Sum(b)
    decreases |b|
  {
    if b != [] {
      var b' := b[..|b| - 1];
      assert (a + b)[..|a + b| - 1] == a + b';
      SumAppend(a, b');
    } else {
      assert a + b == a;
    }
  }

  /** `n` copies of `v` sum to `n * v`. */
  lemma {:induction false} SumConstant(n: nat, v: real)
    ensures Sum(seq(n, _ => v)) == n as real * v
  {
    if n > 0 {
      assert seq(n, _ => v)[..n - 1] == seq(n - 1, _ => v);
      SumConstant(n - 1, v);
    }
  }

  function Abs(x: real): real {
    if x < 0.0 then -x else x
  }

  function Min(a: int, b: int): int {
    if a < b then a else b
  }

  function Clamp(x: int, lo: int, hi: int): int {
    if x < lo then lo else if x > hi then hi else x
  }

  // ===========================================================================
  // Defence modifier
  // ===========================================================================

  /** The band table on the defenders' mean rating: +4 below 5.00 down to -5 from 7.00. */
  function DefenceBand(mean: real): (m: int)
    ensures -5 <= m <= 4
  {
    if mean < 5.00 then 4
    else if mean < 5.25 then 3
    else if mean < 5.50 then 2
    else if mean < 5.75 then 1
    else if mean < 6.00 then 0
    else if mean < 6.25 then -1
    else if mean < 6.50 then -2
    else if mean < 6.75 then -3
    else if mean < 7.00 then -4
    else -5
  }

  /** The band table is one step down per started quarter point above 5.00, clamped to [-5, 4]. */
  lemma DefenceBandFormula(mean: real)
    ensures DefenceBand(mean) == Clamp(3 - (4.0 * (mean - 5.0)).Floor, -5, 4)
  {
    var q := (4.0 * (mean - 5.0)).Floor;
    assert q as real <= 4.0 * (mean - 5.0) < q as real + 1.0;
  }

  /** A better defensive line never yields a larger band value. */
  lemma DefenceBandAntitone(low: real, high: real)
    requires low <= high
    ensures DefenceBand(high) <= DefenceBand(low)
  {
  }

  /** Correction for the number of defenders fielded: +1 with three, 0 with four, -1 with five, -1 per defender beyond the fourth. */
  function FormationCorrection(count: int): (c: int)
    ensures count < 3 ==> c == 0
    ensures count == 3 ==> c == 1
    ensures count == 4 ==> c == 0
    ensures count == 5 ==> c == -2
    ensures count > 5 ==> c == 4 - count
  {
    var fixed := if count == 3 then 1 else if count == 4 then 0 else if count == 5 then -1 else 0;
    var extra := if count > 4 then count - 4 else 0;
    fixed - extra
  }

  function Mean(xs: seq<real>): real
    requires xs != []
  {
    Sum(xs) / |xs| as real
  }

  /**
   * The defence modifier a side generates (applied to the opposing side):
   * 0 without defenders, otherwise the band of the mean plus the formation
   * correction, an integral value within [-5, 4] shifted by that correction.
   */
  function DefenceModifier(ratings: seq<real>, count: int): (m: real)
    ensures ratings == [] ==> m == 0.0
    ensures m.Floor as real == m
    ensures ratings != [] ==> FormationCorrection(count) - 5 <= m.Floor <= FormationCorrection(count) + 4
  {
    if ratings == [] then 0.0
    else (DefenceBand(Mean(ratings)) + FormationCorrection(count)) as real
  }

  /** With the same number of defenders, a higher rating total never gives the opponent more. */
  lemma DefenceModifierAntitone(weaker: seq<real>, stronger: seq<real>, count: int)
    requires |weaker| == |stronger| > 0
    requires Sum(weaker) <= Sum(stronger)
    ensures DefenceModifier(stronger, count) <= DefenceModifier(weaker, count)
  {
    var n := |weaker| as real;
    assert Mean(weaker) <= Mean(stronger) by {
      assert Mean(weaker) * n == Sum(weaker);
      assert Mean(stronger) * n == Sum(stronger);
    }
    DefenceBandAntitone(Mean(weaker), Mean(stronger));
  }

  /** The three worked values: four at 6.25, three at 5.50, five at 7.00. */
  lemma DefenceModifierExamples()
    ensures DefenceModifier([6.0, 6.5, 6.5, 6.0], 4) == -2.0
    ensures DefenceModifier([5.5, 5.5, 5.5], 3) == 2.0
    ensures DefenceModifier([7.0, 7.0, 7.0, 7.0, 7.0], 5) == -7.0
  {
    assert Sum([6.0, 6.5, 6.5, 6.0]) == 25.0 by {
      assert [6.0, 6.5, 6.5, 6.0][..3] == [6.0, 6.5, 6.5];
      assert [6.0, 6.5, 6.5][..2] == [6.0, 6.5];
      assert [6.0, 6.5][..1] == [6.0];
    }
    assert [5.5, 5.5, 5.5] == seq(3, _ => 5.5);
    SumConstant(3, 5.5);
    assert [7.0, 7.0, 7.0, 7.0, 7.0] == seq(5, _ => 7.0);
    SumConstant(5, 7.0);
  }

  // ===========================================================================
  // Midfield modifier
  // ===========================================================================

  /** The band table on the difference of the midfield sums: 0.5 per full point, capped at 4.0. */
  function MidfieldBand(diff: real): (m: real)
    ensures m in {0.0, 0.5, 1.0, 1.5, 2.0, 2.5, 3.0, 3.5, 4.0}
  {
    if diff < 1.0 then 0.0
    else if diff < 2.0 then 0.5
    else if diff < 3.0 then 1.0
    else if diff < 4.0 then 1.5
    else if diff < 5.0 then 2.0
    else if diff < 6.0 then 2.5
    else if diff < 7.0 then 3.0
    else if diff < 8.0 then 3.5
    else 4.0
  }

  /** For a non-negative difference, the band is half the number of whole points, at most 8 of them. */
  lemma MidfieldBandFormula(diff: real)
    requires diff >= 0.0
    ensures MidfieldBand(diff) == 0.5 * Min(diff.Floor, 8) as real
  {
    var f := diff.Floor;
    assert f as real <= diff < f as real + 1.0;
  }

  /** The 5.0 ratings added d'ufficio for each missing midfielder. */
  function Padding(n: nat): (p: seq<real>)
    ensures |p| == n
  {
    seq(n, _ => 5.0)
  }

  /** A side's midfield sum once it is padded to the other side's length, in closed form. */
  function PaddedSum(side: seq<real>, other: seq<real>): real {
    Sum(side) + 5.0 * (if |side| < |other| then |other| - |side| else 0) as real
  }

  /**
   * Gives the band value to the side with the larger sum and its negation to
   * the other; equal sums give (0, 0).
   */
  function MidfieldSplit(sumHome: real, sumAway: real): (r: (real, real))
    ensures r.0 == -r.1
    ensures sumHome == sumAway ==> r == (0.0, 0.0)
    ensures sumHome > sumAway ==> r.0 == MidfieldBand(sumHome - sumAway)
    ensures sumAway > sumHome ==> r.1 == MidfieldBand(sumAway - sumHome)
  {
    var value := MidfieldBand(Abs(sumHome - sumAway));
    if sumHome > sumAway then (value, -value)
    else if sumAway > sumHome then (-value, value)
    else (0.0, 0.0)
  }

  /** Specification of the midfield modifiers (home, away). */
  function MidfieldModifiers(home: seq<real>, away: seq<real>): (r: (real, real))
    ensures r.0 == -r.1
    ensures Abs(r.0) in {0.0, 0.5, 1.0, 1.5, 2.0, 2.5, 3.0, 3.5, 4.0}
    ensures PaddedSum(home, away) == PaddedSum(away, home) ==> r == (0.0, 0.0)
    ensures PaddedSum(home, away) > PaddedSum(away, home) ==> r.0 >= 0.0
    ensures PaddedSum(away, home) > PaddedSum(home, away) ==> r.1 >= 0.0
  {
    MidfieldSplit(PaddedSum(home, away), PaddedSum(away, home))
  }

  /** The worked midfield values: level lines, a missing midfielder padded with 5.0, a two-point gap per player. */
  lemma MidfieldExamples()
    ensures MidfieldModifiers([6.0, 6.0, 6.0, 6.0, 6.0], [6.0, 6.0, 6.0, 6.0, 6.0]) == (0.0, 0.0)
    ensures MidfieldModifiers([6.0, 6.0, 6.0, 6.0], [6.0, 6.0, 6.0, 6.0, 6.0]) == (-0.5, 0.5)
    ensures MidfieldModifiers([7.0, 7.0, 7.0, 7.0, 7.0], [5.0, 5.0, 5.0, 5.0, 5.0]) == (4.0, -4.0)
  {
    assert [6.0, 6.0, 6.0, 6.0] == seq(4, _ => 6.0);
    SumConstant(4, 6.0);
    assert [6.0, 6.0, 6.0, 6.0, 6.0] == seq(5, _ => 6.0);
    SumConstant(5, 6.0);
    assert [7.0, 7.0, 7.0, 7.0, 7.0] == seq(5, _ => 7.0);
    SumConstant(5, 7.0);
    assert [5.0, 5.0, 5.0, 5.0, 5.0] == seq(5, _ => 5.0);
    SumConstant(5, 5.0);
  }

  /** Swapping the sides swaps the two modifiers. */
  lemma MidfieldSwap(home: seq<real>, away: seq<real>)
    ensures MidfieldModifiers(away, home) == (MidfieldModifiers(home, away).1, MidfieldModifiers(home, away).0)
  {
  }

  /** The sum of a side after `extend([5.0] * missing)` is its padded sum. */
  lemma PaddingSum(side: seq<real>, n: nat)
    ensures Sum(side + Padding(n)) == Sum(side) + 5.0 * n as real
  {
    SumAppend(side, Padding(n));
    SumConstant(n, 5.0);
  }

  /**
   * calcola_modificatore_centrocampo: copies both lists, pads the shorter
   * copy with 5.0 ratings, compares the sums. The inputs are values, so
   * they are never changed.
   */
  method ComputeMidfieldModifiers(home: seq<real>, away: seq<real>) returns (modHome: real, modAway: real)
    ensures (modHome, modAway) == MidfieldModifiers(home, away)
  {
    var votesHome := home;
    var votesAway := away;
    if |home| < |away| {
      votesHome := votesHome + Padding(|away| - |home|);
      PaddingSum(home, |away| - |home|);
    } else if |away| < |home| {
      votesAway := votesAway + Padding(|home| - |away|);
      PaddingSum(away, |home| - |away|);
    }
    var sumHome := Sum(votesHome);
    var sumAway := Sum(votesAway);
    var value := MidfieldBand(Abs(sumHome - sumAway));
    if sumHome > sumAway {
      modHome, modAway := value, -value;
    } else if sumAway > sumHome {
      modHome, modAway := -value, value;
    } else {
      modHome, modAway := 0.0, 0.0;
    }
  }

  // ===========================================================================
  // Attack modifier
  // ===========================================================================

  /** What the aggregator passes on for an attacker: its base rating and bonus/malus. */
  datatype AttackerLine = AttackerLine(base: real, bonus: real)

  /** One attacker's contribution: 0.5, 1.0 or 1.5 by rating band, and only with no bonus/malus. */
  function AttackerBonus(a: AttackerLine): (c: real)
    ensures c in {0.0, 0.5, 1.0, 1.5}
    ensures c > 0.0 <==> a.bonus == 0.0 && a.base >= 6.5
    ensures c == 1.5 <==> a.bonus == 0.0 && a.base >= 7.5
    ensures c == 0.5 <==> a.bonus == 0.0 && 6.5 <= a.base < 7.0
  {
    if a.bonus == 0.0 then
      if 6.5 <= a.base < 7.0 then 0.5
      else if 7.0 <= a.base < 7.5 then 1.0
      else if a.base >= 7.5 then 1.5
      else 0.0
    else 0.0
  }

  /** Specification of the attack modifier: the contributions summed, between 0 and 1.5 per attacker. */
  function AttackTotal(attackers: seq<AttackerLine>): (t: real)
    ensures 0.0 <= t <= 1.5 * |attackers| as real
  {
    if attackers == [] then 0.0
    else AttackTotal(attackers[..|attackers| - 1]) + AttackerBonus(attackers[|attackers| - 1])
  }

  /** calcola_modificatore_attacco: one pass over the attackers. */
  method ComputeAttackModifier(attackers: seq<AttackerLine>) returns (modifier: real)
    ensures modifier == AttackTotal(attackers)
  {
    modifier := 0.0;
    for i := 0 to |attackers|
      invariant modifier == AttackTotal(attackers[..i])
    {
      assert attackers[..i + 1][..i] == attackers[..i];
      var att := attackers[i];
      if att.bonus == 0.0 {
        if 6.5 <= att.base < 7.0 {
          modifier := modifier + 0.5;
        } else if 7.0 <= att.base < 7.5 {
          modifier := modifier + 1.0;
        } else if att.base >= 7.5 {
          modifier := modifier + 1.5;
        }
      }
    }
    assert attackers[..|attackers|] == attackers;
  }

  /** The four worked values of the attack table. */
  lemma AttackExamples()
    ensures AttackTotal([AttackerLine(7.0, 0.0)]) == 1.0
    ensures AttackTotal([AttackerLine(6.5, 0.0)]) == 0.5
    ensures AttackTotal([AttackerLine(7.5, 3.0)]) == 0.0
    ensures AttackTotal([AttackerLine(7.5, 0.0), AttackerLine(6.0, 3.0)]) == 1.5
  {
    assert [AttackerLine(7.5, 0.0), AttackerLine(6.0, 3.0)][..1] == [AttackerLine(7.5, 0.0)];
  }

  // ===========================================================================
  // Score to goals
  // ===========================================================================

  /**
   * Goals scored with a final score: 0 below 66, then 1, 2, 3, 4 from 66,
   * 72, 77 and 81, and one more per 4 whole points from 85 on. The source's
   * `int(x / 4)` truncates, which equals the floor because x >= 0 there.
   */
  function GoalsFromScore(score: real): (g: int)
    ensures g >= 0
    ensures g == 0 <==> score < 66.0
  {
    if score < 66.0 then 0
    else if score < 72.0 then 1
    else if score < 77.0 then 2
    else if score < 81.0 then 3
    else if score < 85.0 then 4
    else 4 + ((score - 85.0) / 4.0).Floor
  }

  /** The least score that yields at least `g` goals. */
  function GoalThreshold(g: int): real
    requires g >= 1
  {
    if g == 1 then 66.0
    else if g == 2 then 72.0
    else if g == 3 then 77.0
    else if g == 4 then 81.0
    else 85.0 + 4.0 * (g - 4) as real
  }

  /** A score yields at least `g` goals exactly when it reaches the `g`-th threshold. */
  lemma GoalsReachThreshold(score: real, g: int)
    requires g >= 1
    ensures GoalsFromScore(score) >= g <==> score >= GoalThreshold(g)
  {
    if g >= 5 && score >= 85.0 {
      var f := ((score - 85.0) / 4.0).Floor;
      assert f as real <= (score - 85.0) / 4.0 < f as real + 1.0;
    }
  }

  /** More points never mean fewer goals. */
  lemma GoalsMonotone(low: real, high: real)
    requires low <= high
    ensures GoalsFromScore(low) <= GoalsFromScore(high)
  {
    var g := GoalsFromScore(low);
    if g >= 1 {
      GoalsReachThreshold(low, g);
      GoalsReachThreshold(high, g);
    }
  }

  /** The worked boundary values of the goal table. */
  lemma GoalsExamples()
    ensures GoalsFromScore(65.99) == 0 && GoalsFromScore(66.0) == 1
    ensures GoalsFromScore(71.99) == 1 && GoalsFromScore(72.0) == 2
    ensures GoalsFromScore(76.99) == 2 && GoalsFromScore(77.0) == 3
    ensures GoalsFromScore(80.99) == 3 && GoalsFromScore(81.0) == 4
    ensures GoalsFromScore(84.99) == 4 && GoalsFromScore(85.0) == 4
    ensures GoalsFromScore(89.0) == 5 && GoalsFromScore(93.0) == 6
  {
  }

  // ===========================================================================
  // Match aggregator
  // ===========================================================================

  /** One lineup slot as the aggregator sees it; `role` is `RoleOf` of the slot's `ruolo` code. */
  datatype PlayerEntry = PlayerEntry(role: Role, base: real, bonus: real)

  /** Per-player totals (calcola_voto_totale: base + bonus/malus), in lineup order. */
  function Totals(lineup: seq<PlayerEntry>): (t: seq<real>)
    ensures |t| == |lineup|
  {
    if lineup == [] then []
    else
      var last := lineup[|lineup| - 1];
      Totals(lineup[..|lineup| - 1]) + [last.base + last.bonus]
  }

  /** Base ratings of the entries with `role`, in lineup order. */
  function RatingsOf(lineup: seq<PlayerEntry>, role: Role): seq<real> {
    if lineup == [] then []
    else
      var last := lineup[|lineup| - 1];
      RatingsOf(lineup[..|lineup| - 1], role) + (if last.role == role then [last.base] else [])
  }

  /** Rating and bonus of the attackers, in lineup order. */
  function AttackersOf(lineup: seq<PlayerEntry>): seq<AttackerLine> {
    if lineup == [] then []
    else
      var last := lineup[|lineup| - 1];
      AttackersOf(lineup[..|lineup| - 1])
      + (if last.role == Attacker then [AttackerLine(last.base, last.bonus)] else [])
  }

  function RolesOf(lineup: seq<PlayerEntry>): seq<Role> {
    seq(|lineup|, i requires 0 <= i < |lineup| => lineup[i].role)
  }

  function BaseSum(lineup: seq<PlayerEntry>): real {
    if lineup == [] then 0.0 else BaseSum(lineup[..|lineup| - 1]) + lineup[|lineup| - 1].base
  }

  function BonusSum(lineup: seq<PlayerEntry>): real {
    if lineup == [] then 0.0 else BonusSum(lineup[..|lineup| - 1]) + lineup[|lineup| - 1].bonus
  }

  /** The team rating is the sum of all base ratings plus the sum of all bonus/malus, every role included. */
  lemma {:induction false} TeamRatingSplit(lineup: seq<PlayerEntry>)
    ensures Sum(Totals(lineup)) == BaseSum(lineup) + BonusSum(lineup)
  {
    if lineup != [] {
      var init := lineup[..|lineup| - 1];
      TeamRatingSplit(init);
      var last := lineup[|lineup| - 1];
      assert Totals(lineup) == Totals(init) + [last.base + last.bonus];
      assert Totals(lineup)[..|lineup| - 1] == Totals(init);
    }
  }

  /** The lines hold exactly as many ratings as the lineup has entries with that role. */
  lemma {:induction false} RatingsCount(lineup: seq<PlayerEntry>, role: Role)
    ensures |RatingsOf(lineup, role)| == multiset(RolesOf(lineup))[role]
  {
    if lineup != [] {
      var init := lineup[..|lineup| - 1];
      RatingsCount(init, role);
      assert RolesOf(lineup) == RolesOf(init) + [lineup[|lineup| - 1].role];
    }
  }

  /** The attack line holds exactly the entries with role Attacker. */
  lemma {:induction false} AttackersCount(lineup: seq<PlayerEntry>)
    ensures |AttackersOf(lineup)| == multiset(RolesOf(lineup))[Attacker]
  {
    if lineup != [] {
      var init := lineup[..|lineup| - 1];
      AttackersCount(init);
      assert RolesOf(lineup) == RolesOf(init) + [lineup[|lineup| - 1].role];
    }
  }

  /** No entry is in two lines: defenders, midfielders and attackers together are at most the lineup. */
  lemma {:induction false} LinesDisjoint(lineup: seq<PlayerEntry>)
    ensures |RatingsOf(lineup, Defender)| + |RatingsOf(lineup, Midfielder)| + |AttackersOf(lineup)| <= |lineup|
  {
    if lineup != [] {
      LinesDisjoint(lineup[..|lineup| - 1]);
    }
  }

  /**
   * The loop over one lineup: per-player totals and the three lines
   * (defenders' ratings, midfielders' ratings, attackers' rating and bonus).
   */
  method SplitLineup(lineup: seq<PlayerEntry>)
    returns (totals: seq<real>, defenders: seq<real>, midfielders: seq<real>, attackers: seq<AttackerLine>)
    ensures totals == Totals(lineup)
    ensures defenders == RatingsOf(lineup, Defender)
    ensures midfielders == RatingsOf(lineup, Midfielder)
    ensures attackers == AttackersOf(lineup)
  {
    totals, defenders, midfielders, attackers := [], [], [], [];
    for i := 0 to |lineup|
      invariant totals == Totals(lineup[..i])
      invariant defenders == RatingsOf(lineup[..i], Defender)
      invariant midfielders == RatingsOf(lineup[..i], Midfielder)
      invariant attackers == AttackersOf(lineup[..i])
    {
      assert lineup[..i + 1][..i] == lineup[..i];
      var player := lineup[i];
      totals := totals + [player.base + player.bonus];
      if player.role == Defender {
        defenders := defenders + [player.base];
      } else if player.role == Midfielder {
        midfielders := midfielders + [player.base];
      } else if player.role == Attacker {
        attackers := attackers + [AttackerLine(player.base, player.bonus)];
      }
    }
    assert lineup[..|lineup|] == lineup;
  }

  /** One side of the result, with the fields of the source's result dictionary. */
  datatype SideResult = SideResult(
    teamRating: real,
    defenceGenerated: real,
    defenceConceded: real,
    midfield: real,
    attack: real,
    homeAdvantage: real,
    finalScore: real,
    goals: nat,
    defenders: nat,
    midfielders: nat,
    attackers: nat)

  datatype MatchResult = MatchResult(home: SideResult, away: SideResult, finalLabel: string)

  const HomeAdvantage: real := 2.0
  const AwayAdvantage: real := 0.0

  /** The label "home - away" of the final result. */
  function ScoreLabel(homeGoals: nat, awayGoals: nat): string {
    NatToDecimal(homeGoals) + " - " + NatToDecimal(awayGoals)
  }

  /** Reads a label "h - a" back into its two goal counts. */
  function ParseScoreLabel(s: string): Option<(nat, nat)> {
    var i := IndexOf(s, ' ');
    if i + 3 <= |s| && s[i..i + 3] == " - " && s[..i] != [] && s[i + 3..] != []
       && AllDigits(s[..i]) && AllDigits(s[i + 3..])
    then Some((DecimalValue(s[..i]), DecimalValue(s[i + 3..])))
    else None
  }

  /** The label determines the result: reading it back gives both goal counts. */
  lemma ScoreLabelRoundTrip(homeGoals: nat, awayGoals: nat)
    ensures ParseScoreLabel(ScoreLabel(homeGoals, awayGoals)) == Some((homeGoals, awayGoals))
  {
    var h := NatToDecimal(homeGoals);
    var a := NatToDecimal(awayGoals);
    var s := ScoreLabel(homeGoals, awayGoals);
    assert ' ' !in h;
    assert s == h + (" - " + a);
    IndexOfAfter(h, " - " + a, ' ');
    var i := IndexOf(s, ' ');
    assert s[..i] == h;
    assert s[i + 3..] == a;
    DecimalRoundTrip(homeGoals);
    DecimalRoundTrip(awayGoals);
  }

  /**
   * Specification of calcola_risultato_partita. Each side gets its own team
   * rating, the opponent's defence modifier, its midfield and attack
   * modifiers and its advantage (+2 at home, 0 away); goals come from the
   * unrounded final score.
   */
  function MatchResultOf(home: seq<PlayerEntry>, away: seq<PlayerEntry>): (r: MatchResult)
    ensures r.home.defenceConceded == r.away.defenceGenerated
    ensures r.away.defenceConceded == r.home.defenceGenerated
    ensures r.home.finalScore == r.home.teamRating + r.home.defenceConceded + r.home.midfield + r.home.attack + 2.0
    ensures r.away.finalScore == r.away.teamRating + r.away.defenceConceded + r.away.midfield + r.away.attack
    ensures r.home.homeAdvantage == 2.0 && r.away.homeAdvantage == 0.0
    ensures r.home.midfield == -r.away.midfield
    ensures r.home.defenceGenerated == DefenceModifier(RatingsOf(home, Defender), |RatingsOf(home, Defender)|)
    ensures r.away.defenceGenerated == DefenceModifier(RatingsOf(away, Defender), |RatingsOf(away, Defender)|)
    ensures (r.home.midfield, r.away.midfield) == MidfieldModifiers(RatingsOf(home, Midfielder), RatingsOf(away, Midfielder))
    ensures r.home.attack == AttackTotal(AttackersOf(home)) && r.away.attack == AttackTotal(AttackersOf(away))
    ensures r.home.teamRating == BaseSum(home) + BonusSum(home)
    ensures r.away.teamRating == BaseSum(away) + BonusSum(away)
    ensures r.home.goals == GoalsFromScore(r.home.finalScore) && r.away.goals == GoalsFromScore(r.away.finalScore)
    ensures r.home.defenders == multiset(RolesOf(home))[Defender]
    ensures r.home.midfielders == multiset(RolesOf(home))[Midfielder]
    ensures r.home.attackers == multiset(RolesOf(home))[Attacker]
    ensures r.away.defenders == multiset(RolesOf(away))[Defender]
    ensures r.away.midfielders == multiset(RolesOf(away))[Midfielder]
    ensures r.away.attackers == multiset(RolesOf(away))[Attacker]
    ensures r.finalLabel == ScoreLabel(r.home.goals, r.away.goals)
  {
    TeamRatingSplit(home);
    TeamRatingSplit(away);
    RatingsCount(home, Defender);
    RatingsCount(home, Midfielder);
    AttackersCount(home);
    RatingsCount(away, Defender);
    RatingsCount(away, Midfielder);
    AttackersCount(away);
    var defHome := RatingsOf(home, Defender);
    var defAway := RatingsOf(away, Defender);
    var midHome := RatingsOf(home, Midfielder);
    var midAway := RatingsOf(away, Midfielder);
    var defenceHome := DefenceModifier(defHome, |defHome|);
    var defenceAway := DefenceModifier(defAway, |defAway|);
    var midfield := MidfieldModifiers(midHome, midAway);
    var attackHome := AttackTotal(AttackersOf(home));
    var attackAway := AttackTotal(AttackersOf(away));
    var ratingHome := Sum(Totals(home));
    var ratingAway := Sum(Totals(away));
    var scoreHome := ratingHome + defenceAway + midfield.0 + attackHome + HomeAdvantage;
    var scoreAway := ratingAway + defenceHome + midfield.1 + attackAway + AwayAdvantage;
    var goalsHome := GoalsFromScore(scoreHome);
    var goalsAway := GoalsFromScore(scoreAway);
    MatchResult(
      SideResult(ratingHome, defenceHome, defenceAway, midfield.0, attackHome, HomeAdvantage,
                 scoreHome, goalsHome, |defHome|, |midHome|, |AttackersOf(home)|),
      SideResult(ratingAway, defenceAway, defenceHome, midfield.1, attackAway, AwayAdvantage,
                 scoreAway, goalsAway, |defAway|, |midAway|, |AttackersOf(away)|),
      ScoreLabel(goalsHome, goalsAway))
  }

  /** calcola_risultato_partita: splits both lineups, computes the modifiers, cross-applies defence. */
  method ComputeMatchResult(home: seq<PlayerEntry>, away: seq<PlayerEntry>) returns (r: MatchResult)
    ensures r == MatchResultOf(home, away)
  {
    var totalsHome, defendersHome, midfieldersHome, attackersHome := SplitLineup(home);
    var ratingHome := Sum(totalsHome);
    var totalsAway, defendersAway, midfieldersAway, attackersAway := SplitLineup(away);
    var ratingAway := Sum(totalsAway);

    var defenceHome := DefenceModifier(defendersHome, |defendersHome|);
    var defenceAway := DefenceModifier(defendersAway, |defendersAway|);
    var midfieldHome, midfieldAway := ComputeMidfieldModifiers(midfieldersHome, midfieldersAway);
    var attackHome := ComputeAttackModifier(attackersHome);
    var attackAway := ComputeAttackModifier(attackersAway);

    var scoreHome := ratingHome + defenceAway + midfieldHome + attackHome + HomeAdvantage;
    var scoreAway := ratingAway + defenceHome + midfieldAway + attackAway + AwayAdvantage;
    var goalsHome := GoalsFromScore(scoreHome);
    var goalsAway := GoalsFromScore(scoreAway);

    r := MatchResult(
      SideResult(ratingHome, defenceHome, defenceAway, midfieldHome, attackHome, HomeAdvantage,
                 scoreHome, goalsHome, |defendersHome|, |midfieldersHome|, |attackersHome|),
      SideResult(ratingAway, defenceAway, defenceHome, midfieldAway, attackAway, AwayAdvantage,
                 scoreAway, goalsAway, |defendersAway|, |midfieldersAway|, |attackersAway|),
      ScoreLabel(goalsHome, goalsAway));
  }

  /**
   * The home advantage is the only asymmetry: a lineup playing away against
   * the same opponent gets the same rating and modifiers, a final score 2
   * lower, and never more goals.
   */
  lemma HomeAdvantageOnlyAsymmetry(a: seq<PlayerEntry>, b: seq<PlayerEntry>)
    ensures MatchResultOf(b, a).away.teamRating == MatchResultOf(a, b).home.teamRating
    ensures MatchResultOf(b, a).away.defenceConceded == MatchResultOf(a, b).home.defenceConceded
    ensures MatchResultOf(b, a).away.midfield == MatchResultOf(a, b).home.midfield
    ensures MatchResultOf(b, a).away.attack == MatchResultOf(a, b).home.attack
    ensures MatchResultOf(b, a).away.finalScore == MatchResultOf(a, b).home.finalScore - 2.0
    ensures MatchResultOf(b, a).away.goals <= MatchResultOf(a, b).home.goals
  {
    MidfieldSwap(RatingsOf(a, Midfielder), RatingsOf(b, Midfielder));
    GoalsMonotone(MatchResultOf(b, a).away.finalScore, MatchResultOf(a, b).home.finalScore);
  }

}
