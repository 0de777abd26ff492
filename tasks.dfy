/** What a citizen does once the search is over (AIEldar.cc:584-757), stated
    on values: the move approach_target commits to, where a builder builds
    when it does not move, and where a citizen in danger at night runs to.
    A cell's neighbourhood is seen as four optional cells in the order of
    Directions, None for a step off the board. */
module Tasks {
  import opened Encoding
  import opened Queues
  import opened Decision
  import opened Approach

  /** What the three grids hold at one neighbouring cell. */
  datatype Nb = Nb(content: int, enemy: int, barricade: int)

  /** The kinds of neighbour the fallback tasks look for. */
  datatype Rule =
    | Improve(maxResistance: int)  // has_buildable_barricade (AIEldar.cc:374-377)
    | QuietSite                    // empty, no barricade, no enemy can reach it (AIEldar.cc:656)
    | AnySite                      // empty, no barricade (AIEldar.cc:664)
    | Cover                        // one of my barricades (AIEldar.cc:703, 740)

  predicate Fits(o: Option<Nb>, rule: Rule)
  {
    o.Some? &&
    match rule
    case Improve(m) => Improvable(o.value.content, o.value.barricade, m)
    case QuietSite => o.value.content == EMPTY && o.value.enemy == 0 && o.value.barricade == 0
    case AnySite => o.value.content == EMPTY && o.value.barricade == 0
    case Cover => o.value.barricade > 0
  }

  /** The first neighbour, in the order of Directions, that fits the rule. */
  function First(nb: seq<Option<Nb>>, rule: Rule): (r: Option<nat>)
    ensures r.Some? ==> r.value < |nb| && Fits(nb[r.value], rule)
    ensures r.Some? ==> forall k :: 0 <= k < r.value ==> !Fits(nb[k], rule)
    ensures r.None? ==> forall k :: 0 <= k < |nb| ==> !Fits(nb[k], rule)
  {
    if nb == [] then None
    else if Fits(nb[0], rule) then Some(0)
    else match First(nb[1..], rule)
      case None => None
      case Some(k) => Some(k + 1)
  }

  /** Where builder_day_task builds (AIEldar.cc:645-669), and whether it
      starts a new barricade: the first improvable barricade of mine; else,
      below the barricade cap, the first empty cell out of every enemy's
      reach, else the first empty cell. */
  function BuildSite(nb: seq<Option<Nb>>, num: int, maxNum: int, maxResistance: int): (r: Option<(nat, bool)>)
    ensures r.Some? ==> r.value.0 < |nb|
    ensures r.Some? && !r.value.1 ==> Fits(nb[r.value.0], Improve(maxResistance))
    ensures (exists k :: 0 <= k < |nb| && Fits(nb[k], Improve(maxResistance))) ==> r.Some? && !r.value.1
    ensures r.Some? && r.value.1 ==> num < maxNum && Fits(nb[r.value.0], AnySite)
    ensures r.Some? && r.value.1 && (exists k :: 0 <= k < |nb| && Fits(nb[k], QuietSite)) ==>
              Fits(nb[r.value.0], QuietSite)
    ensures r.Some? && !r.value.1 ==> forall k :: 0 <= k < r.value.0 ==> !Fits(nb[k], Improve(maxResistance))
    ensures r.Some? && r.value.1 && (exists k :: 0 <= k < |nb| && Fits(nb[k], QuietSite)) ==>
              forall k :: 0 <= k < r.value.0 ==> !Fits(nb[k], QuietSite)
    ensures r.Some? && r.value.1 && (forall k :: 0 <= k < |nb| ==> !Fits(nb[k], QuietSite)) ==>
              forall k :: 0 <= k < r.value.0 ==> !Fits(nb[k], AnySite)
    ensures r.None? <==>
              && (forall k :: 0 <= k < |nb| ==> !Fits(nb[k], Improve(maxResistance)))
              && (num >= maxNum || forall k :: 0 <= k < |nb| ==> !Fits(nb[k], AnySite))
  {
    match First(nb, Improve(maxResistance))
    case Some(k) => Some((k, false))
    case None =>
      if num >= maxNum then None
      else match First(nb, QuietSite)
        case Some(k) => Some((k, true))
        case None =>
          match First(nb, AnySite)
          case Some(k) => Some((k, true))
          case None => None
  }

  /** The builder's barricade count stays within the cap once it is there:
      a build that starts a barricade happens only below the cap. */
  lemma BuildSiteKeepsCap(nb: seq<Option<Nb>>, num: int, maxNum: int, maxResistance: int)
    ensures var r := BuildSite(nb, num, maxNum, maxResistance);
            var num' := if r.Some? && r.value.1 then num + 1 else num;
            num' <= (if num <= maxNum then maxNum else num)
  {
  }

  /** An escape route (is_escape_route, AIEldar.cc:680-683). */
  predicate Route(o: Option<Nb>, weapon: int)
  {
    o.Some? && EscapeRoute(o.value.content, o.value.enemy, weapon)
  }

  /** The escape chosen among the neighbours (AIEldar.cc:709-716, 746-753):
      starting from `floor`, a route replaces the best so far only when its
      content is strictly greater. The result is the best content and its
      neighbour, or `floor` and none. */
  function Escape(nb: seq<Option<Nb>>, weapon: int, floor: int): (r: (int, Option<nat>))
    ensures r.1.None? ==> r.0 == floor
    ensures r.1.None? ==> forall k :: 0 <= k < |nb| && Route(nb[k], weapon) ==> nb[k].value.content <= floor
    ensures r.1.Some? ==> r.1.value < |nb| && Route(nb[r.1.value], weapon)
    ensures r.1.Some? ==> r.0 == nb[r.1.value].value.content && r.0 > floor
    ensures forall k :: 0 <= k < |nb| && Route(nb[k], weapon) ==> nb[k].value.content <= r.0
    ensures r.1.Some? ==> forall k :: 0 <= k < r.1.value && Route(nb[k], weapon) ==> nb[k].value.content < r.0
  {
    if nb == [] then (floor, None)
    else
      var init := nb[..|nb| - 1];
      assert forall k :: 0 <= k < |init| ==> init[k] == nb[k];
      var b := Escape(init, weapon, floor);
      var o := nb[|nb| - 1];
      if Route(o, weapon) && o.value.content > b.0 then (o.value.content, Some(|nb| - 1)) else b
  }

  /** With the warriors' floor INT_MIN, any escape route is taken: enemy
      cells too, since their codes are above INT_MIN. */
  lemma WarriorAlwaysEscapes(nb: seq<Option<Nb>>, weapon: int, k: nat)
    requires k < |nb| && Route(nb[k], weapon) && nb[k].value.content >= ENEMY_BAZOOKA
    ensures Escape(nb, weapon, INT_MIN).1.Some?
  {
  }

  /** With the builders' floor -1, only an empty cell or a bonus is an
      escape: never a friend, a wall or an enemy. */
  lemma BuilderEscapesToFreeCells(nb: seq<Option<Nb>>)
    ensures var r := Escape(nb, BUILDER, -1);
            r.1.Some? ==> nb[r.1.value].value.content >= EMPTY
  {
  }

  /** Where a citizen runs at night when the search found nothing
      (AIEldar.cc:697-718, 734-756): only when the strongest enemy next to
      it beats its weapon; to the first barricade of mine next to it if
      any, else to the best escape above `floor`. */
  function NightMove(nb: seq<Option<Nb>>, here: int, weapon: int, floor: int): (r: Option<nat>)
    ensures r.Some? ==> -here > weapon && r.value < |nb|
    ensures r.Some? && Fits(nb[r.value], Cover) ==> forall k :: 0 <= k < r.value ==> !Fits(nb[k], Cover)
    ensures -here > weapon && (exists k :: 0 <= k < |nb| && Fits(nb[k], Cover)) ==>
              r.Some? && Fits(nb[r.value], Cover)
    ensures -here > weapon && (forall k :: 0 <= k < |nb| ==> !Fits(nb[k], Cover)) ==>
              r == Escape(nb, weapon, floor).1
  {
    if -here <= weapon then None
    else match First(nb, Cover)
      case Some(k) => Some(k)
      case None => Escape(nb, weapon, floor).1
  }

  /** The priority of a run (AIEldar.cc:698-699, 735-736). */
  function RunPriority(aboutToDie: bool): (r: int)
    ensures r > BUILD_PRIORITY
    ensures aboutToDie <==> r == RUN_DEATH_PRIORITY
  {
    if aboutToDie then RUN_DEATH_PRIORITY else RUN_PRIORITY
  }

  /** The move approach_target sends after its search, as priority and
      direction, or none when it returns false (AIEldar.cc:446-452, 586-629). */
  function Verdict(res: Exploration, isWarrior: bool, isDay: bool, barricadeHere: int,
                   numBarricades: int, maxNum: int, improvableNear: bool,
                   dangerHere: bool, aboutToDie: bool): (r: Option<(int, Dir)>)
    ensures res.Shortcut? ==> (r.None? <==> res.upgraded < -res.stepEnemy)
    ensures res.Shortcut? && r.Some? ==> r.value == (VERY_HIGH_PRIORITY, res.dir)
    ensures res.Searched? ==>
              var t := BarricadeThreshold(isDay, isWarrior, barricadeHere, numBarricades, maxNum, improvableNear);
              (r.Some? <==> res.best.profit != INT_MIN && res.best.profit > t && !(dangerHere && res.stepDist > 1))
    ensures res.Searched? && r.Some? ==> r.value.1 == res.best.dir
    ensures res.Searched? && r.Some? && dangerHere ==> r.value.0 == RunPriority(aboutToDie)
    ensures res.Searched? && r.Some? && !dangerHere && res.stepEnemy == 0 ==> r.value.0 == NOT_IMPORTANT
    ensures res.Searched? && r.Some? && !dangerHere && res.stepEnemy != 0 ==> r.value.0 == res.best.profit
  {
    match res
    case Shortcut(d, upgraded, stepEnemy) =>
      if upgraded < -stepEnemy then None else Some((VERY_HIGH_PRIORITY, d))
    case Searched(best, stepDist, stepEnemy) =>
      var t := BarricadeThreshold(isDay, isWarrior, barricadeHere, numBarricades, maxNum, improvableNear);
      match Commit(best.profit, t, dangerHere, stepDist, aboutToDie, stepEnemy)
      case None => None
      case Some(priority) => Some((priority, best.dir))
  }

  /** At night a builder never stays put for a barricade: a searched target
      is always taken unless it is missing or the step out of danger is
      useless. */
  lemma NightNeverWaitsToBuild(res: Exploration, isWarrior: bool, barricadeHere: int,
                               numBarricades: int, maxNum: int, improvableNear: bool,
                               dangerHere: bool, aboutToDie: bool)
    requires res.Searched?
    ensures var r := Verdict(res, isWarrior, false, barricadeHere, numBarricades, maxNum, improvableNear,
                             dangerHere, aboutToDie);
            r.Some? <==> res.best.profit > INT_MIN && !(dangerHere && res.stepDist > 1)
  {
  }
}
