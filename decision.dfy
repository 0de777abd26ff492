/** The per-cell rules of approach_target (AIEldar.cc:357-630) as pure
    functions: danger, the obvious moves, movement costs, target scoring,
    the barricade threshold and the final commit step. */
module Decision {
  import opened Encoding
  import opened Host
  import opened Snapshot
  import opened Queues

  /* Profits and thresholds (AIEldar.cc:135-152). */
  const MONEY_PROFIT := 12
  const HEALTH_PROFIT := 17
  const ABOUT_TO_DIE_BONUS := 5
  const ATTACK_PROFIT := 19
  const WEAPON_PROFIT := 25
  const STEAL_WEAPON_PROFIT := 12
  const BAZOOKA_EXTRA_PROFIT := 3
  const WARRIOR_EXTRA_PROFIT := 3
  const BARRICADE_THRESHOLD := 2
  const BARRICADE_INTERRUPT_THRESHOLD := 5
  const PERCENT_BUILD := 70
  const COST_WALK_INTO_FRIENDLY := 3
  /* The turns added to a weapon cell a teammate is closer to (AIEldar.cc:550). */
  const DETER_PENALTY := 4

  /** C++ integer division, which truncates toward zero. */
  function CDiv(a: int, b: int): (r: int)
    requires b > 0
    ensures a >= 0 ==> 0 <= r && r * b <= a < r * b + b
    ensures a < 0 ==> r <= 0 && -(r * b) <= -a < -(r * b) + b
  {
    if a >= 0 then
      DivBounds(a, b);
      a / b
    else
      DivBounds(-a, b);
      -((-a) / b)
  }

  /** Euclidean division of a non-negative number. */
  lemma DivBounds(a: int, b: int)
    requires a >= 0 && b > 0
    ensures 0 <= a / b && (a / b) * b <= a < (a / b) * b + b
    ensures -(-(a / b) * b) == (a / b) * b
  {
    var q, m := a / b, a % b;
    assert a == q * b + m && 0 <= m < b;
  }

  /** strength_demolish (AIEldar.cc:366-371): damage a weapon does to a barricade. */
  function StrengthDemolish(weapon: int, p: Params): (r: int)
    requires p.Valid()
    ensures r > 0
    ensures weapon == BUILDER ==> r == p.builderDemolish
    ensures weapon == HAMMER ==> r == p.hammerDemolish
    ensures weapon == GUN ==> r == p.gunDemolish
    ensures weapon != BUILDER && weapon != HAMMER && weapon != GUN ==> r == p.bazookaDemolish
  {
    if weapon == BUILDER then p.builderDemolish
    else if weapon == HAMMER then p.hammerDemolish
    else if weapon == GUN then p.gunDemolish
    else p.bazookaDemolish
  }

  /** is_danger (AIEldar.cc:380-384): going to a cell with enemy value
      `enemy` hurts a citizen holding `weapon`, unless no attack can land
      before the next round. */
  function IsDanger(enemy: int, weapon: int, noDamageWindow: bool): (r: bool)
    ensures r ==> !noDamageWindow
    ensures r && weapon >= 0 ==> enemy < 0
    ensures !noDamageWindow && weapon >= 0 ==> (r <==> enemy < -weapon)
  {
    if noDamageWindow then false else -enemy > weapon
  }

  /** no_brainer (AIEldar.cc:387-397): the cell is an obvious move and the
      weapon I would hold after taking it. */
  function NoBrainer(content: int, enemy: int, barricade: int, weapon: int,
                     isWarrior: bool, night: bool, lifeLostInAttack: int): (r: (bool, int))
    ensures r.1 >= weapon
    ensures r.1 != weapon ==> r.0 && isWarrior && r.1 == content
    ensures content > weapon && isWarrior ==> r.0
    ensures r.0 <==> (content <= ENEMY_BUILDER && -content <= weapon && night
                      && enemy <= lifeLostInAttack && barricade == 0)
                     || (isWarrior && content > weapon)
    ensures !isWarrior && content > ENEMY_BUILDER ==> !r.0
  {
    if content <= ENEMY_BUILDER && -content <= weapon && night
       && enemy <= lifeLostInAttack && barricade == 0 then (true, weapon)
    else if isWarrior && content > weapon then (true, content)
    else (false, weapon)
  }

  /** add_movement_penalties (AIEldar.cc:400-408): the turns, beyond one,
      that stepping into a cell costs: demolishing an enemy barricade,
      beating the enemy standing there (one hit fewer, since attacks land
      from next door), or squeezing past my own citizen. */
  function MovementPenalty(content: int, enemy: int, barricade: int, weapon: int, p: Params): (r: int)
    requires p.Valid()
    ensures content > ENEMY_BUILDER && content != FRIENDLY_CITIZEN && barricade >= 0 ==> r == 0
    ensures content == FRIENDLY_CITIZEN && barricade >= 0 ==> r == COST_WALK_INTO_FRIENDLY
    ensures content <= ENEMY_BUILDER && enemy >= 0 ==> r >= -1
    ensures content > ENEMY_BUILDER ==> r >= 0
  {
    (if barricade < 0 then CDiv(-barricade, StrengthDemolish(weapon, p)) else 0)
    + (if content <= ENEMY_BUILDER then CDiv(enemy, p.lifeLostInAttack) - 1 else 0)
    + (if content == FRIENDLY_CITIZEN then COST_WALK_INTO_FRIENDLY else 0)
  }

  /** The terms of MovementPenalty: the whole turns an enemy barricade's
      resistance takes to knock down, and the whole hits an enemy's life
      takes, less the one landed from next door. */
  lemma PenaltyTerms(content: int, enemy: int, barricade: int, weapon: int, p: Params)
    requires p.Valid()
    // the barricade term: the whole turns its resistance takes to knock down
    ensures var f := if content == FRIENDLY_CITIZEN then COST_WALK_INTO_FRIENDLY else 0;
            var e := if content <= ENEMY_BUILDER then CDiv(enemy, p.lifeLostInAttack) - 1 else 0;
            var k, s := MovementPenalty(content, enemy, barricade, weapon, p) - e - f, StrengthDemolish(weapon, p);
            (barricade >= 0 ==> k == 0) && (barricade < 0 ==> k * s <= -barricade < k * s + s)
    // the enemy term: the whole hits its life takes, less the one landed from next door
    ensures var f := if content == FRIENDLY_CITIZEN then COST_WALK_INTO_FRIENDLY else 0;
            var k := if barricade < 0 then CDiv(-barricade, StrengthDemolish(weapon, p)) else 0;
            var e, l := MovementPenalty(content, enemy, barricade, weapon, p) - k - f, p.lifeLostInAttack;
            (content > ENEMY_BUILDER ==> e == 0) &&
            (content <= ENEMY_BUILDER && enemy >= 0 ==> (e + 1) * l <= enemy < (e + 1) * l + l)
  {
  }

  /** A barricade never takes more turns to knock down with a weapon that
      demolishes more per hit. */
  lemma FewerTurnsWithStrongerWeapon(a: int, s1: int, s2: int)
    requires a >= 0 && s1 >= s2 > 0
    ensures CDiv(a, s1) <= CDiv(a, s2)
  {
    var q1, q2 := CDiv(a, s1), CDiv(a, s2);
    if q1 > q2 {
      MulMonotone(q1, s2, s1);
      MulMonotone(s2, q2 + 1, q1);
    }
  }

  /** Multiplying by a non-negative number keeps the order. */
  lemma MulMonotone(x: int, y: int, z: int)
    requires x >= 0 && y <= z
    ensures x * y <= x * z
  {
    assert x * z - x * y == x * (z - y);
  }

  /** So, everything else alike, stepping into a cell costs no more turns
      with the stronger weapon (AIEldar.cc:402). */
  lemma StrongerWeaponNeverSlower(content: int, enemy: int, barricade: int, w1: int, w2: int, p: Params)
    requires p.Valid() && StrengthDemolish(w1, p) >= StrengthDemolish(w2, p)
    ensures MovementPenalty(content, enemy, barricade, w1, p) <= MovementPenalty(content, enemy, barricade, w2, p)
  {
    if barricade < 0 {
      FewerTurnsWithStrongerWeapon(-barricade, StrengthDemolish(w1, p), StrengthDemolish(w2, p));
    }
  }

  /** The bonus-table entry of p; std::map::operator[] yields a default
      entry for a missing key. */
  function Lookup(m: map<Pos, BonusInfo>, p: Pos): (r: BonusInfo)
    ensures p !in m ==> r == DefaultInfo
    ensures p in m ==> r == m[p]
  {
    if p in m then m[p] else DefaultInfo
  }

  /** Another citizen is closer to a coin than I am and was farther from
      it last round: it is heading there and will take it first. */
  predicate LosingRace(distance: int, closest: int, closestBefore: int)
  {
    closest < distance && closest < closestBefore
  }

  /** What reaching one cell offers during the search (AIEldar.cc:495-565). */
  datatype Scored =
    | Attack(profit: int)                   // a weaker enemy reached at night: not searched past
    | Candidate(profit: int, claim: bool)   // money, food or a weapon; claim: steal it from an enemy
    | Deter                                 // a weapon a teammate will take: make paths through it dearer
    | Pass                                  // nothing of interest

  /** The score of a cell at `distance` turns. `stronger` is is_stronger
      against its occupant, `nightOnArrival` whether the round I would
      arrive in is a night, `info` its entry in this round's bonus table and
      `prevDist` the distance recorded for it last round. */
  function Score(isWarrior: bool, content: int, distance: int, stronger: bool, nightOnArrival: bool,
                 weapon: int, needHeal: bool, aboutToDie: bool, info: BonusInfo, prevDist: int): (r: Scored)
    ensures r.Attack? <==> isWarrior && content <= ENEMY_BUILDER && stronger && nightOnArrival
    ensures r.Attack? ==>
              r.profit == ATTACK_PROFIT - distance + (if content < ENEMY_BUILDER then WARRIOR_EXTRA_PROFIT else 0)
    ensures !r.Attack? && content == MONEY ==> r.Candidate? && !r.claim
    ensures !r.Attack? && content == MONEY && LosingRace(distance, info.closestDist, prevDist) ==>
              r.profit == Min(0, MONEY_PROFIT - distance)
    ensures !r.Attack? && content == MONEY && !LosingRace(distance, info.closestDist, prevDist) ==>
              r.profit == MONEY_PROFIT - distance
    ensures content == FOOD ==>
              if needHeal then r == Candidate(HEALTH_PROFIT - distance + (if aboutToDie then ABOUT_TO_DIE_BONUS else 0), false)
              else r == Pass
    ensures content >= GUN && info.closestDist >= distance && !info.closestIsFriendly && !(isWarrior && content > weapon) ==>
              r == Candidate(STEAL_WEAPON_PROFIT - distance + (if content == BAZOOKA then BAZOOKA_EXTRA_PROFIT else 0), true)
    ensures content <= ENEMY_BUILDER && !r.Attack? ==> r == Pass
    ensures r.Candidate? && r.claim ==>
              && content >= GUN && info.closestDist >= distance && !info.closestIsFriendly
              && !(isWarrior && content > weapon)
              && r.profit == STEAL_WEAPON_PROFIT - distance + (if content == BAZOOKA then BAZOOKA_EXTRA_PROFIT else 0)
    ensures r.Deter? <==>
              content >= GUN && info.closestDist >= distance && info.closestIsFriendly && !(isWarrior && content > weapon)
    ensures content >= GUN && info.closestDist >= distance && isWarrior && content > weapon ==>
              r == Candidate(WEAPON_PROFIT - distance + (if content == BAZOOKA then 2 * BAZOOKA_EXTRA_PROFIT else 0), false)
    ensures content >= GUN && info.closestDist < distance ==> r == Pass
    ensures content in {EMPTY, WALL, FRIENDLY_CITIZEN} ==> r == Pass
  {
    if isWarrior && content <= ENEMY_BUILDER && stronger && nightOnArrival then
      Attack(ATTACK_PROFIT - distance + (if content < ENEMY_BUILDER then WARRIOR_EXTRA_PROFIT else 0))
    else if content == MONEY then
      var profit := MONEY_PROFIT - distance;
      // a closer citizen that is getting closer will win the race
      if profit > 0 && LosingRace(distance, info.closestDist, prevDist) then Candidate(0, false)
      else Candidate(profit, false)
    else if needHeal && content == FOOD then
      Candidate(HEALTH_PROFIT - distance + (if aboutToDie then ABOUT_TO_DIE_BONUS else 0), false)
    else if content >= GUN && info.closestDist >= distance then
      if isWarrior && content > weapon then
        Candidate(WEAPON_PROFIT - distance + (if content == BAZOOKA then 2 * BAZOOKA_EXTRA_PROFIT else 0), false)
      else if info.closestIsFriendly then Deter
      else Candidate(STEAL_WEAPON_PROFIT - distance + (if content == BAZOOKA then BAZOOKA_EXTRA_PROFIT else 0), true)
    else Pass
  }

  /** The profit threshold under which a citizen builds instead of moving
      (AIEldar.cc:589-603): only a builder, by day, not standing on a
      barricade has one; it is BARRICADE_INTERRUPT_THRESHOLD next to an
      improvable barricade, else BARRICADE_THRESHOLD while more barricades
      may be built, else none. */
  function BarricadeThreshold(isDay: bool, isWarrior: bool, barricadeHere: int,
                              numBarricades: int, maxNumBarricades: int, improvableNear: bool): (r: int)
    ensures r in {INT_MIN, BARRICADE_THRESHOLD, BARRICADE_INTERRUPT_THRESHOLD}
    ensures r != INT_MIN ==> isDay && !isWarrior && barricadeHere == 0
    ensures r == BARRICADE_INTERRUPT_THRESHOLD <==> isDay && !isWarrior && barricadeHere == 0 && improvableNear
    ensures r == BARRICADE_THRESHOLD <==>
              isDay && !isWarrior && barricadeHere == 0 && !improvableNear && numBarricades < maxNumBarricades
  {
    if isDay && !isWarrior && barricadeHere == 0 then
      if improvableNear then BARRICADE_INTERRUPT_THRESHOLD
      else if numBarricades < maxNumBarricades then BARRICADE_THRESHOLD
      else INT_MIN
    else INT_MIN
  }

  /** The end of approach_target (AIEldar.cc:586-628): the priority of the
      move toward the best target, or None when the citizen does not move.
      `stepDist` and `stepEnemy` are the final distance and enemy value of
      the first cell on the way, `dangerHere` whether the citizen's own cell
      is dangerous. */
  function Commit(bestProfit: int, threshold: int, dangerHere: bool, stepDist: int,
                  aboutToDie: bool, stepEnemy: int): (r: Option<int>)
    ensures r.Some? <==> bestProfit != INT_MIN && bestProfit > threshold && !(dangerHere && stepDist > 1)
    ensures r.Some? && dangerHere ==> r.value == (if aboutToDie then RUN_DEATH_PRIORITY else RUN_PRIORITY)
    ensures r.Some? && !dangerHere && stepEnemy == 0 ==> r.value == NOT_IMPORTANT
    ensures r.Some? && !dangerHere && stepEnemy != 0 ==> r.value == bestProfit
  {
    if bestProfit == INT_MIN then None
    else if bestProfit <= threshold then None
    else if dangerHere && stepDist > 1 then None
    else if dangerHere then Some(if aboutToDie then RUN_DEATH_PRIORITY else RUN_PRIORITY)
    else if stepEnemy == 0 then Some(NOT_IMPORTANT)
    else Some(bestProfit)
  }

  /** A warrior's move is never held back by the barricade threshold: only
      a missing target or a useless step out of danger stop it. */
  lemma WarriorNeverBuilds(isDay: bool, barricadeHere: int, numBarricades: int, maxNum: int,
                           improvableNear: bool, bestProfit: int, dangerHere: bool, stepDist: int,
                           aboutToDie: bool, stepEnemy: int)
    ensures var t := BarricadeThreshold(isDay, true, barricadeHere, numBarricades, maxNum, improvableNear);
            var moves := Commit(bestProfit, t, dangerHere, stepDist, aboutToDie, stepEnemy).Some?;
            moves <==> bestProfit > INT_MIN && !(dangerHere && stepDist > 1)
  {
  }

  /** A builder that has reached the barricade cap and has nothing to
      improve nearby is not held back either. */
  lemma CappedBuilderNeverBuilds(isDay: bool, barricadeHere: int, numBarricades: int, maxNum: int,
                                 bestProfit: int, dangerHere: bool, stepDist: int,
                                 aboutToDie: bool, stepEnemy: int)
    requires numBarricades >= maxNum
    ensures var t := BarricadeThreshold(isDay, false, barricadeHere, numBarricades, maxNum, false);
            var moves := Commit(bestProfit, t, dangerHere, stepDist, aboutToDie, stepEnemy).Some?;
            moves <==> bestProfit > INT_MIN && !(dangerHere && stepDist > 1)
  {
  }

  /** has_buildable_barricade (AIEldar.cc:374-377) on the values of one cell:
      my barricade, nobody of mine on it, below PERCENT_BUILD % of the maximum. */
  function Improvable(content: int, barricade: int, maxResistance: int): (r: bool)
    ensures r <==> barricade > 0 && content != FRIENDLY_CITIZEN && (barricade + 1) * 100 <= maxResistance * PERCENT_BUILD
  {
    barricade > 0 && content != FRIENDLY_CITIZEN && barricade < CDiv(maxResistance * PERCENT_BUILD, 100)
  }

  /** is_escape_route (AIEldar.cc:680-683) on the values of one cell. */
  function EscapeRoute(content: int, enemy: int, weapon: int): (r: bool)
    ensures r ==> content != WALL && (enemy < 0 ==> -enemy <= weapon)
    ensures weapon >= 0 ==> (r <==> content != WALL && (enemy < 0 ==> -enemy <= weapon))
  {
    content != WALL && -enemy <= weapon
  }

  /** An escape route is exactly a non-wall cell where no attack can hurt
      the citizen once the day-time shelter is over. */
  lemma EscapeRouteIsSafe(content: int, enemy: int, weapon: int)
    requires weapon >= 0
    ensures EscapeRoute(content, enemy, weapon) <==> content != WALL && !IsDanger(enemy, weapon, false)
  {
  }
}
