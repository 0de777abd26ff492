/** The search of approach_target (AIEldar.cc:413-584): from one citizen,
    an obvious move next door if there is one; otherwise a best-first
    search whose every path keeps the direction of its first step, scoring
    each cell reached and keeping the most profitable target. */
module Approach {
  import opened Encoding
  import opened Host
  import opened Snapshot
  import opened Queues
  import opened Decision

  /** The three grids of one round, matching the world they were built from:
      the content codes are those of Classify. */
  predicate Scene(w: World, board: array2<int>, enemy: array2<int>, barr: array2<int>)
    reads board
  {
    Grids(w, board, enemy, barr) && Board(w, board)
  }

  /** The three grids have the dimensions of world w. */
  predicate Grids(w: World, board: array2<int>, enemy: array2<int>, barr: array2<int>)
  {
    && Sized(w, board)
    && enemy.Length0 == w.rows && enemy.Length1 == w.cols
    && barr.Length0 == w.rows && barr.Length1 == w.cols
  }

  /** A grid with the dimensions of world w. */
  predicate Sized(w: World, board: array2<int>)
  {
    w.WellFormed() && board.Length0 == w.rows && board.Length1 == w.cols
  }

  /** Every cell showing an enemy holds a non-negative enemy value, the
      enemy's life (AIEldar.cc:325-326). */
  predicate LiveEnemies(w: World, board: array2<int>, enemy: array2<int>)
    requires Sized(w, board) && enemy.Length0 == w.rows && enemy.Length1 == w.cols
    reads board, enemy
  {
    forall i, j :: 0 <= i < w.rows && 0 <= j < w.cols && board[i, j] <= ENEMY_BUILDER ==> enemy[i, j] >= 0
  }

  /** A cell the search may start into (AIEldar.cc:461, 477): not a wall,
      not dangerous, and not an enemy at least as strong as my weapon. */
  predicate Admissible(w: World, board: array2<int>, enemy: array2<int>, weapon: int, p: Pos)
    requires board.Length0 == w.rows && board.Length1 == w.cols
    requires enemy.Length0 == w.rows && enemy.Length1 == w.cols
    requires InGrid(p, w.rows, w.cols)
    reads board, enemy
  {
    var b := board[p.i, p.j];
    b != WALL && !IsDanger(enemy[p.i, p.j], weapon, w.NoDamageWindow()) && -b < weapon
  }

  /** No neighbour of p is dangerous: p cannot become dangerous next round
      (AIEldar.cc:455-458). */
  predicate Safe(w: World, enemy: array2<int>, weapon: int, p: Pos)
    requires enemy.Length0 == w.rows && enemy.Length1 == w.cols
    reads enemy
  {
    forall e: Dir :: InGrid(Step(p, e), w.rows, w.cols) ==>
      !IsDanger(enemy[Step(p, e).i, Step(p, e).j], weapon, w.NoDamageWindow())
  }

  /** The step from c in direction d is an obvious move (AIEldar.cc:446-452). */
  predicate NoBrainerAt(w: World, board: array2<int>, enemy: array2<int>, barr: array2<int>,
                        c: Citizen, isWarrior: bool, d: Dir)
    requires board.Length0 == w.rows && board.Length1 == w.cols
    requires enemy.Length0 == w.rows && enemy.Length1 == w.cols
    requires barr.Length0 == w.rows && barr.Length1 == w.cols
    reads board, enemy, barr
  {
    var p := Step(c.pos, d);
    InGrid(p, w.rows, w.cols) &&
    NoBrainer(board[p.i, p.j], enemy[p.i, p.j], barr[p.i, p.j], MyWeapon(c.weapon), isWarrior,
              !w.IsDay(), w.params.lifeLostInAttack).0
  }

  /** d is the first direction, in the order of Directions, whose step is an obvious move. */
  predicate FirstObvious(w: World, board: array2<int>, enemy: array2<int>, barr: array2<int>,
                         c: Citizen, isWarrior: bool, d: Dir)
    requires board.Length0 == w.rows && board.Length1 == w.cols
    requires enemy.Length0 == w.rows && enemy.Length1 == w.cols
    requires barr.Length0 == w.rows && barr.Length1 == w.cols
    reads board, enemy, barr
  {
    && NoBrainerAt(w, board, enemy, barr, c, isWarrior, d)
    && forall d' :: Rank(d') < Rank(d) ==> !NoBrainerAt(w, board, enemy, barr, c, isWarrior, d')
  }

  /** No step from c is an obvious move. */
  predicate NoObviousMove(w: World, board: array2<int>, enemy: array2<int>, barr: array2<int>,
                          c: Citizen, isWarrior: bool)
    requires board.Length0 == w.rows && board.Length1 == w.cols
    requires enemy.Length0 == w.rows && enemy.Length1 == w.cols
    requires barr.Length0 == w.rows && barr.Length1 == w.cols
    reads board, enemy, barr
  {
    forall d :: !NoBrainerAt(w, board, enemy, barr, c, isWarrior, d)
  }

  /** The step from c in direction d lands on the grid in an admissible cell. */
  predicate Seedable(w: World, board: array2<int>, enemy: array2<int>, c: Citizen, d: Dir)
    requires board.Length0 == w.rows && board.Length1 == w.cols
    requires enemy.Length0 == w.rows && enemy.Length1 == w.cols
    reads board, enemy
  {
    var p := Step(c.pos, d);
    InGrid(p, w.rows, w.cols) && Admissible(w, board, enemy, MyWeapon(c.weapon), p)
  }

  ghost predicate SafeSeedExists(w: World, board: array2<int>, enemy: array2<int>, c: Citizen)
    requires board.Length0 == w.rows && board.Length1 == w.cols
    requires enemy.Length0 == w.rows && enemy.Length1 == w.cols
    reads board, enemy
  {
    exists d: Dir :: SafeSeed(w, board, enemy, c, d)
  }

  /** A first step the search may take: an admissible one, and a safe one
      whenever some admissible first step is safe (AIEldar.cc:438-481). */
  ghost predicate SeedOk(w: World, board: array2<int>, enemy: array2<int>, c: Citizen, d: Dir)
    requires board.Length0 == w.rows && board.Length1 == w.cols
    requires enemy.Length0 == w.rows && enemy.Length1 == w.cols
    reads board, enemy
  {
    Seedable(w, board, enemy, c, d) &&
    (SafeSeedExists(w, board, enemy, c) ==> Safe(w, enemy, MyWeapon(c.weapon), Step(c.pos, d)))
  }

  /** A weapon to be taken from an enemy: the citizen will be the closest
      one to it, at distance `dist` (AIEldar.cc:554-563, 622-625). */
  datatype Claim = Claim(pos: Pos, dist: int)

  /** A scored target: its profit, the first step toward it and its claim. */
  datatype Offer = Offer(profit: int, dir: Dir, claim: Option<Claim>)

  /** The state before any target: profit INT_MIN, direction Left. */
  const NoOffer := Offer(INT_MIN, Left, None)

  /** The best target after scoring the offers in order: a later offer
      replaces the best only with a strictly larger profit. */
  function BestOf(s: seq<Offer>): (b: Offer)
    ensures b == NoOffer || b in s
    ensures forall k :: 0 <= k < |s| ==> s[k].profit <= b.profit
    ensures INT_MIN <= b.profit
  {
    if s == [] then NoOffer
    else
      var b := BestOf(s[..|s| - 1]);
      if s[|s| - 1].profit > b.profit then s[|s| - 1] else b
  }

  /** A real best target is the first offer with the largest profit. */
  lemma {:induction false} BestOfFirst(s: seq<Offer>)
    requires BestOf(s).profit > INT_MIN
    ensures exists k :: 0 <= k < |s| && s[k] == BestOf(s) && forall j :: 0 <= j < k ==> s[j].profit < s[k].profit
  {
    var init := s[..|s| - 1];
    var b := BestOf(init);
    if s[|s| - 1].profit > b.profit {
      var k := |s| - 1;
      assert forall j :: 0 <= j < k ==> s[j] == init[j];
    } else {
      BestOfFirst(init);
      var k :| 0 <= k < |init| && init[k] == b && forall j :: 0 <= j < k ==> init[j].profit < init[k].profit;
      assert s[k] == init[k];
    }
  }

  /** A claimed weapon is one the citizen is the closest to. */
  predicate ClaimOk(w: World, cur: map<Pos, BonusInfo>, cl: Option<Claim>)
    requires w.WellFormed()
  {
    cl.Some? ==>
      var p := cl.value.pos;
      && InGrid(p, w.rows, w.cols) && Classify(w, p) >= GUN
      && Lookup(cur, p).closestDist >= cl.value.dist && !Lookup(cur, p).closestIsFriendly
  }

  /** The outcome of the search: an obvious move, with the weapon held after
      it and the enemy value of its cell; or the best target found, with the
      final distance and the enemy value of its first step. */
  datatype Exploration =
    | Shortcut(dir: Dir, upgraded: int, stepEnemy: int)
    | Searched(best: Offer, stepDist: int, stepEnemy: int)

  /** The turns it takes to step into p: one, plus its movement penalties
      (AIEldar.cc:462-463, 572-573). */
  function StepCost(w: World, board: array2<int>, enemy: array2<int>, barr: array2<int>, c: Citizen, p: Pos): int
    requires w.WellFormed() && InGrid(p, w.rows, w.cols)
    requires board.Length0 == w.rows && board.Length1 == w.cols
    requires enemy.Length0 == w.rows && enemy.Length1 == w.cols
    requires barr.Length0 == w.rows && barr.Length1 == w.cols
    reads board, enemy, barr
  {
    1 + MovementPenalty(board[p.i, p.j], enemy[p.i, p.j], barr[p.i, p.j], MyWeapon(c.weapon), w.params)
  }

  /** The vertex a first step in direction d is queued as. */
  function SeedVertex(w: World, board: array2<int>, enemy: array2<int>, barr: array2<int>, c: Citizen, d: Dir): Vertex
    requires w.WellFormed() && InGrid(Step(c.pos, d), w.rows, w.cols)
    requires board.Length0 == w.rows && board.Length1 == w.cols
    requires enemy.Length0 == w.rows && enemy.Length1 == w.cols
    requires barr.Length0 == w.rows && barr.Length1 == w.cols
    reads board, enemy, barr
  {
    Vertex(StepCost(w, board, enemy, barr, c, Step(c.pos, d)), Step(c.pos, d), d)
  }

  /** The score of the cell of v, reached v.dist turns from now
      (AIEldar.cc:495-565). */
  function CellScore(w: World, board: array2<int>, cur: map<Pos, BonusInfo>, prev: map<Pos, BonusInfo>,
                     c: Citizen, isWarrior: bool, v: Vertex): Scored
    requires Board(w, board) && InGrid(v.pos, w.rows, w.cols)
    reads board
  {
    var u, weapon := v.pos, MyWeapon(c.weapon);
    var content := board[u.i, u.j];
    assert Classified(w, board, u.i, u.j);
    var stronger := content <= ENEMY_BUILDER && IsStronger(weapon, c.life, content, LifeAt(w, u));
    Score(isWarrior, content, v.dist, stronger, !w.dayAt(w.round + v.dist), weapon,
          NeedHeal(w, c, isWarrior), w.params.lifeLostInAttack >= c.life, Lookup(cur, u), Lookup(prev, u).closestDist)
  }

  /** The distance the neighbours of an expanded vertex are relaxed from:
      its own, plus DETER_PENALTY for a weapon a teammate will take
      (AIEldar.cc:550, 572). */
  function Base(w: World, board: array2<int>, cur: map<Pos, BonusInfo>, prev: map<Pos, BonusInfo>,
                c: Citizen, isWarrior: bool, v: Vertex): int
    requires Board(w, board) && InGrid(v.pos, w.rows, w.cols)
    reads board
  {
    v.dist + if CellScore(w, board, cur, prev, c, isWarrior, v).Deter? then DETER_PENALTY else 0
  }

  /** The offers made by the expanded vertices, in the order they were popped. */
  ghost function Offers(w: World, board: array2<int>, cur: map<Pos, BonusInfo>, prev: map<Pos, BonusInfo>,
                        c: Citizen, isWarrior: bool, pops: seq<Vertex>): seq<Offer>
    requires Board(w, board) && PopsInGrid(w, pops)
    reads board
  {
    if pops == [] then []
    else
      var v := pops[|pops| - 1];
      Offers(w, board, cur, prev, c, isWarrior, pops[..|pops| - 1])
      + match OfferFor(CellScore(w, board, cur, prev, c, isWarrior, v), v.dir, v.pos, v.dist)
        case Some(o) => [o]
        case None => []
  }

  /** The board holds the content codes of world w. */
  predicate Board(w: World, board: array2<int>)
    reads board
  {
    && Sized(w, board)
    && (forall i, j :: 0 <= i < w.rows && 0 <= j < w.cols ==> Classified(w, board, i, j))
  }

  /** The cell (i, j) of the board holds its content code. */
  predicate Classified(w: World, board: array2<int>, i: int, j: int)
    requires Sized(w, board) && 0 <= i < w.rows && 0 <= j < w.cols
    reads board
  {
    board[i, j] == Classify(w, Pos(i, j))
  }

  predicate PopsInGrid(w: World, pops: seq<Vertex>)
  {
    forall k :: 0 <= k < |pops| ==> InGrid(pops[k].pos, w.rows, w.cols)
  }

  /** The search has closed over its expanded vertices: every non-wall
      neighbour p of one that is not an enemy to attack, other than the
      origin, was expanded too, either earlier or at no more than the
      distance relaxed to it (when that is below INF). */
  ghost predicate ClosedSearch(w: World, board: array2<int>, enemy: array2<int>, barr: array2<int>,
                               cur: map<Pos, BonusInfo>, prev: map<Pos, BonusInfo>, c: Citizen, isWarrior: bool,
                               pops: seq<Vertex>)
    requires Scene(w, board, enemy, barr) && PopsInGrid(w, pops)
    reads board, enemy, barr
  {
    forall k, d: Dir :: 0 <= k < |pops| ==> Covered(w, board, enemy, barr, cur, prev, c, isWarrior, pops, k, d)
  }

  /** The search goes on from the k-th expanded vertex in direction d: the
      vertex is not an enemy to attack, and the step leads to a non-wall
      cell other than the origin, at a relaxed distance below INF. */
  ghost predicate Edge(w: World, board: array2<int>, enemy: array2<int>, barr: array2<int>,
                       cur: map<Pos, BonusInfo>, prev: map<Pos, BonusInfo>, c: Citizen, isWarrior: bool,
                       pops: seq<Vertex>, k: int, d: Dir)
    requires Scene(w, board, enemy, barr) && PopsInGrid(w, pops) && 0 <= k < |pops|
    reads board, enemy, barr
  {
    var p := Step(pops[k].pos, d);
    && !CellScore(w, board, cur, prev, c, isWarrior, pops[k]).Attack?
    && InGrid(p, w.rows, w.cols) && board[p.i, p.j] != WALL && p != c.pos
    && EdgeBound(w, board, enemy, barr, cur, prev, c, isWarrior, pops[k], d) < INF
  }

  /** The distance the step from v in direction d is relaxed to. */
  function EdgeBound(w: World, board: array2<int>, enemy: array2<int>, barr: array2<int>,
                     cur: map<Pos, BonusInfo>, prev: map<Pos, BonusInfo>, c: Citizen, isWarrior: bool,
                     v: Vertex, d: Dir): int
    requires Scene(w, board, enemy, barr) && InGrid(v.pos, w.rows, w.cols) && InGrid(Step(v.pos, d), w.rows, w.cols)
    reads board, enemy, barr
  {
    Base(w, board, cur, prev, c, isWarrior, v) + StepCost(w, board, enemy, barr, c, Step(v.pos, d))
  }

  /** The cell the k-th expanded vertex leads to in direction d was
      expanded, either earlier or at no more than the relaxed distance. */
  ghost predicate Covered(w: World, board: array2<int>, enemy: array2<int>, barr: array2<int>,
                          cur: map<Pos, BonusInfo>, prev: map<Pos, BonusInfo>, c: Citizen, isWarrior: bool,
                          pops: seq<Vertex>, k: int, d: Dir)
    requires Scene(w, board, enemy, barr) && PopsInGrid(w, pops) && 0 <= k < |pops|
    reads board, enemy, barr
  {
    Edge(w, board, enemy, barr, cur, prev, c, isWarrior, pops, k, d) ==>
      var p := Step(pops[k].pos, d);
      exists j :: 0 <= j < |pops| && pops[j].pos == p &&
                  (j < k || pops[j].dist <= EdgeBound(w, board, enemy, barr, cur, prev, c, isWarrior, pops[k], d))
  }

  /** The same while the search runs: or the cell is still to expand, at no
      more than the relaxed distance. */
  ghost predicate Reached(w: World, board: array2<int>, enemy: array2<int>, barr: array2<int>,
                          cur: map<Pos, BonusInfo>, prev: map<Pos, BonusInfo>, c: Citizen, isWarrior: bool,
                          visited: set<Pos>, dist: map<Pos, int>, pops: seq<Vertex>, k: int, d: Dir)
    requires Scene(w, board, enemy, barr) && PopsInGrid(w, pops) && 0 <= k < |pops|
    reads board, enemy, barr
  {
    Edge(w, board, enemy, barr, cur, prev, c, isWarrior, pops, k, d) ==>
      var p := Step(pops[k].pos, d);
      var bound := EdgeBound(w, board, enemy, barr, cur, prev, c, isWarrior, pops[k], d);
      (p !in visited && DistOf(dist, p) <= bound) ||
      (exists j :: 0 <= j < |pops| && pops[j].pos == p && (j < k || pops[j].dist <= bound))
  }

  /** What the main loop establishes once the queue is empty: `pops` lists
      the expanded vertices (cell, distance when popped, first step), each
      cell once, never the origin, each with an allowed first step; every
      allowed first step was expanded at no more than its seed cost; every
      cell ever given a distance was expanded; the search is closed; each
      expanded vertex descends from an allowed first step or from a vertex
      expanded before it; and the distance of each expanded cell is settled. */
  ghost predicate SearchDone(w: World, board: array2<int>, enemy: array2<int>, barr: array2<int>,
                             cur: map<Pos, BonusInfo>, prev: map<Pos, BonusInfo>, c: Citizen, isWarrior: bool,
                             pops: seq<Vertex>, dist: map<Pos, int>)
    reads board, enemy, barr
  {
    && Scene(w, board, enemy, barr) && InGrid(c.pos, w.rows, w.cols)
    && PopsInGrid(w, pops)
    && (forall k :: 0 <= k < |pops| ==> pops[k].pos != c.pos && SeedOk(w, board, enemy, c, pops[k].dir))
    && (forall a, b :: 0 <= a < b < |pops| ==> pops[a].pos != pops[b].pos)
    && (forall a, b :: 0 <= a < b < |pops| ==> pops[a].dist <= pops[b].dist)
    && (forall d: Dir :: SeedExpanded(w, board, enemy, barr, c, pops, d))
    && (forall p :: p in dist ==> p == c.pos || p in Cells(pops))
    && ClosedSearch(w, board, enemy, barr, cur, prev, c, isWarrior, pops)
    && Lineage(w, board, enemy, barr, cur, prev, c, isWarrior, pops)
    && Pinned(w, board, enemy, barr, cur, prev, c, isWarrior, dist, pops)
  }

  /** If d is an allowed first step, its cell was expanded at no more than
      its seed cost. */
  ghost predicate SeedExpanded(w: World, board: array2<int>, enemy: array2<int>, barr: array2<int>, c: Citizen,
                               pops: seq<Vertex>, d: Dir)
    requires Grids(w, board, enemy, barr) && InGrid(c.pos, w.rows, w.cols)
    reads board, enemy, barr
  {
    SeedOk(w, board, enemy, c, d) ==>
      exists j :: 0 <= j < |pops| && pops[j].pos == Step(c.pos, d)
                  && pops[j].dist <= StepCost(w, board, enemy, barr, c, Step(c.pos, d))
  }

  /** Expanding v, which is not an enemy to attack, relaxes the non-wall
      cell p one step away in direction d (AIEldar.cc:566-582). */
  ghost predicate Feeds(w: World, board: array2<int>, cur: map<Pos, BonusInfo>, prev: map<Pos, BonusInfo>,
                        c: Citizen, isWarrior: bool, v: Vertex, d: Dir, p: Pos)
    requires Board(w, board) && InGrid(v.pos, w.rows, w.cols)
    reads board
  {
    && !CellScore(w, board, cur, prev, c, isWarrior, v).Attack?
    && Step(v.pos, d) == p && InGrid(p, w.rows, w.cols) && board[p.i, p.j] != WALL
  }

  /** Where a queued vertex v comes from: an allowed first step queued at
      its seed cost (AIEldar.cc:458-464, 474-480), or a neighbour relaxed
      out of one of the first n expanded vertices, at the distance relaxed
      to and with that vertex's first step (AIEldar.cc:575-580). */
  ghost predicate Origin(w: World, board: array2<int>, enemy: array2<int>, barr: array2<int>,
                         cur: map<Pos, BonusInfo>, prev: map<Pos, BonusInfo>, c: Citizen, isWarrior: bool,
                         pops: seq<Vertex>, n: int, v: Vertex)
    requires Scene(w, board, enemy, barr) && InGrid(c.pos, w.rows, w.cols) && PopsInGrid(w, pops) && n <= |pops|
    reads board, enemy, barr
  {
    || (SeedOk(w, board, enemy, c, v.dir) && v == SeedVertex(w, board, enemy, barr, c, v.dir))
    || exists j, d: Dir :: 0 <= j < n && Feeds(w, board, cur, prev, c, isWarrior, pops[j], d, v.pos)
                           && v.dir == pops[j].dir
                           && v.dist == EdgeBound(w, board, enemy, barr, cur, prev, c, isWarrior, pops[j], d)
  }

  /** Every expanded vertex is an allowed first step at its seed cost, or
      was relaxed out of a vertex expanded before it, whose first step it
      carries. */
  ghost predicate Lineage(w: World, board: array2<int>, enemy: array2<int>, barr: array2<int>,
                          cur: map<Pos, BonusInfo>, prev: map<Pos, BonusInfo>, c: Citizen, isWarrior: bool,
                          pops: seq<Vertex>)
    requires Scene(w, board, enemy, barr) && InGrid(c.pos, w.rows, w.cols) && PopsInGrid(w, pops)
    reads board, enemy, barr
  {
    forall k {:trigger Origin(w, board, enemy, barr, cur, prev, c, isWarrior, pops, k, pops[k])} ::
      0 <= k < |pops| ==> Origin(w, board, enemy, barr, cur, prev, c, isWarrior, pops, k, pops[k])
  }

  /** The distance of the cell of the k-th expanded vertex: it has one; it
      is no more than the distance its own expansion relaxed from (its
      distance when popped, plus DETER_PENALTY for a weapon a teammate will
      take), nor than any relaxation into it out of a vertex expanded later;
      and it is one of these. */
  ghost predicate Settled(w: World, board: array2<int>, enemy: array2<int>, barr: array2<int>,
                          cur: map<Pos, BonusInfo>, prev: map<Pos, BonusInfo>, c: Citizen, isWarrior: bool,
                          dist: map<Pos, int>, pops: seq<Vertex>, k: int)
    requires Scene(w, board, enemy, barr) && PopsInGrid(w, pops) && 0 <= k < |pops|
    reads board, enemy, barr
  {
    var p := pops[k].pos;
    && p in dist
    && dist[p] <= Base(w, board, cur, prev, c, isWarrior, pops[k])
    && (forall j, d: Dir :: k < j < |pops| && Feeds(w, board, cur, prev, c, isWarrior, pops[j], d, p) ==>
          dist[p] <= EdgeBound(w, board, enemy, barr, cur, prev, c, isWarrior, pops[j], d))
    && (|| dist[p] == Base(w, board, cur, prev, c, isWarrior, pops[k])
        || exists j, d: Dir :: k < j < |pops| && Feeds(w, board, cur, prev, c, isWarrior, pops[j], d, p)
                               && dist[p] == EdgeBound(w, board, enemy, barr, cur, prev, c, isWarrior, pops[j], d))
  }

  /** The distance of every expanded cell is settled. */
  ghost predicate Pinned(w: World, board: array2<int>, enemy: array2<int>, barr: array2<int>,
                         cur: map<Pos, BonusInfo>, prev: map<Pos, BonusInfo>, c: Citizen, isWarrior: bool,
                         dist: map<Pos, int>, pops: seq<Vertex>)
    requires Scene(w, board, enemy, barr) && PopsInGrid(w, pops)
    reads board, enemy, barr
  {
    forall k {:trigger Settled(w, board, enemy, barr, cur, prev, c, isWarrior, dist, pops, k)} ::
      0 <= k < |pops| ==> Settled(w, board, enemy, barr, cur, prev, c, isWarrior, dist, pops, k)
  }

  /** res is the shortcut onto the first obvious move, with the upgrade
      NoBrainer reports for the cell it steps onto and that cell's enemy
      count (AIEldar.cc:446-452). */
  predicate ShortcutTaken(w: World, board: array2<int>, enemy: array2<int>, barr: array2<int>,
                          c: Citizen, isWarrior: bool, res: Exploration)
    requires board.Length0 == w.rows && board.Length1 == w.cols
    requires enemy.Length0 == w.rows && enemy.Length1 == w.cols
    requires barr.Length0 == w.rows && barr.Length1 == w.cols
    requires res.Shortcut?
    reads board, enemy, barr
  {
    && FirstObvious(w, board, enemy, barr, c, isWarrior, res.dir)
    && var p := Step(c.pos, res.dir);
       && res.upgraded == NoBrainer(board[p.i, p.j], enemy[p.i, p.j], barr[p.i, p.j], MyWeapon(c.weapon),
                                    isWarrior, !w.IsDay(), w.params.lifeLostInAttack).1
       && res.stepEnemy == enemy[p.i, p.j]
  }

  /** What the search establishes. An obvious move is the first one in the
      order of Directions, with the weapon held after it and the enemy value
      of its cell. Otherwise no step is obvious, the search is done over the
      expanded vertices `pops` with final distances `dist`, the offers are
      the scores of the expanded cells in the order popped, the best target
      is the first most profitable of them, each offer claims only a weapon
      the citizen is closest to, and a real best target comes with the
      final distance and enemy value of its first step. */
  ghost predicate Explored(w: World, board: array2<int>, enemy: array2<int>, barr: array2<int>,
                           cur: map<Pos, BonusInfo>, prev: map<Pos, BonusInfo>, c: Citizen, isWarrior: bool,
                           res: Exploration, offers: seq<Offer>, pops: seq<Vertex>, dist: map<Pos, int>)
    reads board, enemy, barr
  {
    && Scene(w, board, enemy, barr) && InGrid(c.pos, w.rows, w.cols)
    && (res.Shortcut? ==> ShortcutTaken(w, board, enemy, barr, c, isWarrior, res))
    && (res.Searched? ==>
          && NoObviousMove(w, board, enemy, barr, c, isWarrior)
          && SearchDone(w, board, enemy, barr, cur, prev, c, isWarrior, pops, dist)
          && offers == Offers(w, board, cur, prev, c, isWarrior, pops)
          && res.best == BestOf(offers)
          && (forall k :: 0 <= k < |offers| ==>
                SeedOk(w, board, enemy, c, offers[k].dir) && ClaimOk(w, cur, offers[k].claim)))
    && (res.Searched? && res.best.profit > INT_MIN ==>
          && SeedOk(w, board, enemy, c, res.best.dir)
          && res.stepDist == DistOf(dist, Step(c.pos, res.best.dir))
          && res.stepEnemy == enemy[Step(c.pos, res.best.dir).i, Step(c.pos, res.best.dir).j])
  }

  /** The first step of every expanded vertex is that of an allowed first
      step whose seed vertex was expanded no later. */
  lemma {:induction false} Rooted(w: World, board: array2<int>, enemy: array2<int>, barr: array2<int>,
               cur: map<Pos, BonusInfo>, prev: map<Pos, BonusInfo>, c: Citizen, isWarrior: bool,
               pops: seq<Vertex>, k: int)
    requires Scene(w, board, enemy, barr) && InGrid(c.pos, w.rows, w.cols) && PopsInGrid(w, pops)
    requires Lineage(w, board, enemy, barr, cur, prev, c, isWarrior, pops) && 0 <= k < |pops|
    ensures SeedOk(w, board, enemy, c, pops[k].dir)
    ensures exists j :: 0 <= j <= k && pops[j] == SeedVertex(w, board, enemy, barr, c, pops[k].dir)
    decreases k
  {
    assert Origin(w, board, enemy, barr, cur, prev, c, isWarrior, pops, k, pops[k]);
    var v := pops[k];
    if !(SeedOk(w, board, enemy, c, v.dir) && v == SeedVertex(w, board, enemy, barr, c, v.dir)) {
      var j, d: Dir :| && 0 <= j < k && Feeds(w, board, cur, prev, c, isWarrior, pops[j], d, v.pos)
                       && v.dir == pops[j].dir
                       && v.dist == EdgeBound(w, board, enemy, barr, cur, prev, c, isWarrior, pops[j], d);
      Rooted(w, board, enemy, barr, cur, prev, c, isWarrior, pops, j);
    }
  }

  /** The final distance reported for the best target's first step is the
      settled distance of an expanded cell: no more than the distance it
      relaxed from nor than any relaxation into it out of a later vertex,
      and equal to one of these. */
  lemma FirstStepSettled(w: World, board: array2<int>, enemy: array2<int>, barr: array2<int>,
                         cur: map<Pos, BonusInfo>, prev: map<Pos, BonusInfo>, c: Citizen, isWarrior: bool,
                         res: Exploration, offers: seq<Offer>, pops: seq<Vertex>, dist: map<Pos, int>)
    requires Explored(w, board, enemy, barr, cur, prev, c, isWarrior, res, offers, pops, dist)
    requires res.Searched? && res.best.profit > INT_MIN
    ensures PopsInGrid(w, pops)
    ensures exists k :: && 0 <= k < |pops| && pops[k].pos == Step(c.pos, res.best.dir)
                        && Settled(w, board, enemy, barr, cur, prev, c, isWarrior, dist, pops, k)
                        && res.stepDist == dist[pops[k].pos]
  {
    assert SeedExpanded(w, board, enemy, barr, c, pops, res.best.dir);
    var k :| 0 <= k < |pops| && pops[k].pos == Step(c.pos, res.best.dir)
             && pops[k].dist <= StepCost(w, board, enemy, barr, c, Step(c.pos, res.best.dir));
    assert Settled(w, board, enemy, barr, cur, prev, c, isWarrior, dist, pops, k);
  }

  /** The weapon the best target claims is one the citizen is closest to. */
  lemma ExploredClaim(w: World, board: array2<int>, enemy: array2<int>, barr: array2<int>,
                      cur: map<Pos, BonusInfo>, prev: map<Pos, BonusInfo>, c: Citizen, isWarrior: bool,
                      res: Exploration, offers: seq<Offer>, pops: seq<Vertex>, dist: map<Pos, int>)
    requires Explored(w, board, enemy, barr, cur, prev, c, isWarrior, res, offers, pops, dist)
    requires res.Searched?
    ensures ClaimOk(w, cur, res.best.claim)
  {
    if res.best.claim.Some? {
      var k :| 0 <= k < |offers| && offers[k] == res.best;
    }
  }

  /** The search. `offers` lists the targets scored, in the order popped;
      `pops` the vertices expanded and `dist` the final distances. */
  method Explore(w: World, board: array2<int>, enemy: array2<int>, barr: array2<int>,
                 cur: map<Pos, BonusInfo>, prev: map<Pos, BonusInfo>, c: Citizen, isWarrior: bool)
    returns (res: Exploration, ghost offers: seq<Offer>, ghost pops: seq<Vertex>, ghost dist: map<Pos, int>)
    requires Scene(w, board, enemy, barr) && LiveEnemies(w, board, enemy) && InGrid(c.pos, w.rows, w.cols)
    ensures Explored(w, board, enemy, barr, cur, prev, c, isWarrior, res, offers, pops, dist)
    ensures res.Shortcut? ==> FirstObvious(w, board, enemy, barr, c, isWarrior, res.dir)
    ensures res.Searched? ==> NoObviousMove(w, board, enemy, barr, c, isWarrior)
  {
    var shortcut, q, dist0, okDirs := Seeds(w, board, enemy, barr, c, isWarrior);
    if shortcut.Some? {
      var d := shortcut.value;
      var p := Step(c.pos, d);
      var nb := NoBrainer(board[p.i, p.j], enemy[p.i, p.j], barr[p.i, p.j], MyWeapon(c.weapon),
                          isWarrior, !w.IsDay(), w.params.lifeLostInAttack);
      res := Shortcut(d, nb.1, enemy[p.i, p.j]);
      offers, pops, dist := [], [], dist0;
    } else {
      var best, stepDist, stepEnemy;
      best, stepDist, stepEnemy, offers, pops, dist :=
        Search(w, board, enemy, barr, cur, prev, c, isWarrior, q, dist0, okDirs);
      res := Searched(best, stepDist, stepEnemy);
    }
  }

  /** The first two loops of approach_target (AIEldar.cc:426-481): the
      origin at distance 0, then an obvious move if there is one, else
      every allowed first step queued at its seed cost, and nothing else. */
  method Seeds(w: World, board: array2<int>, enemy: array2<int>, barr: array2<int>, c: Citizen, isWarrior: bool)
    returns (shortcut: Option<Dir>, q: seq<Vertex>, dist: map<Pos, int>, ghost okDirs: set<Dir>)
    requires Scene(w, board, enemy, barr) && InGrid(c.pos, w.rows, w.cols)
    ensures shortcut.Some? ==> FirstObvious(w, board, enemy, barr, c, isWarrior, shortcut.value)
    ensures shortcut.None? ==> NoObviousMove(w, board, enemy, barr, c, isWarrior)
    ensures shortcut.None? ==> okDirs == set d | d in Directions && SeedOk(w, board, enemy, c, d)
    ensures shortcut.None? ==> SeedQueue(w, board, enemy, barr, c, q, dist)
  {
    shortcut, q, dist := SeedSafe(w, board, enemy, barr, c, isWarrior);
    okDirs := {};
    if shortcut.Some? {
      return;
    }
    if q == [] {
      q, dist := SeedAny(w, board, enemy, barr, c);
      SeededBy(w, board, enemy, barr, c, false, q, dist);
    } else {
      assert SafeSeed(w, board, enemy, c, q[0].dir);
      SeededBy(w, board, enemy, barr, c, true, q, dist);
    }
    okDirs := set d | d in Directions && SeedOk(w, board, enemy, c, d);
  }

  /** The loop that ran queued exactly the allowed first steps: the safe
      ones when there are some, else the admissible ones. */
  lemma SeededBy(w: World, board: array2<int>, enemy: array2<int>, barr: array2<int>, c: Citizen,
                 safeOnly: bool, q: seq<Vertex>, dist: map<Pos, int>)
    requires Grids(w, board, enemy, barr) && InGrid(c.pos, w.rows, w.cols)
    requires safeOnly == SafeSeedExists(w, board, enemy, c)
    requires forall v :: v in q ==>
               Eligible(w, board, enemy, c, safeOnly, v.dir) && v == SeedVertex(w, board, enemy, barr, c, v.dir)
    requires forall d: Dir :: Eligible(w, board, enemy, c, safeOnly, d) ==> SeedVertex(w, board, enemy, barr, c, d) in q
    requires forall p :: p in dist <==> p == c.pos || exists v :: v in q && v.pos == p
    requires dist[c.pos] == 0 && forall v :: v in q ==> dist[v.pos] == v.dist
    ensures SeedQueue(w, board, enemy, barr, c, q, dist)
  {
    forall d: Dir
      ensures SeedOk(w, board, enemy, c, d) == Eligible(w, board, enemy, c, safeOnly, d)
    {
    }
  }

  /** The queue and distances the main loop starts from: the origin at
      distance 0, and exactly the allowed first steps, each queued once at
      its seed cost. */
  ghost predicate SeedQueue(w: World, board: array2<int>, enemy: array2<int>, barr: array2<int>, c: Citizen,
                         q: seq<Vertex>, dist: map<Pos, int>)
    reads board, enemy, barr
  {
    && Grids(w, board, enemy, barr) && InGrid(c.pos, w.rows, w.cols)
    && (forall v :: v in q ==>
          SeedOk(w, board, enemy, c, v.dir) && v == SeedVertex(w, board, enemy, barr, c, v.dir))
    && (forall d: Dir :: SeedOk(w, board, enemy, c, d) ==> SeedVertex(w, board, enemy, barr, c, d) in q)
    && (forall p :: p in dist <==> p == c.pos || exists v :: v in q && v.pos == p)
    && dist[c.pos] == 0
    && (forall v :: v in q ==> dist[v.pos] == v.dist)
  }

  /** The main loop of approach_target (AIEldar.cc:484-583) from the queued
      first steps; the final distance and enemy value of the best target's
      first step. */
  method Search(w: World, board: array2<int>, enemy: array2<int>, barr: array2<int>,
                cur: map<Pos, BonusInfo>, prev: map<Pos, BonusInfo>, c: Citizen, isWarrior: bool,
                q: seq<Vertex>, dist: map<Pos, int>, ghost okDirs: set<Dir>)
    returns (best: Offer, stepDist: int, stepEnemy: int, ghost offers: seq<Offer>,
             ghost pops: seq<Vertex>, ghost dist': map<Pos, int>)
    requires Board(w, board) && SeedQueue(w, board, enemy, barr, c, q, dist) && LiveEnemies(w, board, enemy)
    requires okDirs == set d | d in Directions && SeedOk(w, board, enemy, c, d)
    ensures SearchDone(w, board, enemy, barr, cur, prev, c, isWarrior, pops, dist')
    ensures offers == Offers(w, board, cur, prev, c, isWarrior, pops)
    ensures best == BestOf(offers)
    ensures forall k :: 0 <= k < |offers| ==>
              SeedOk(w, board, enemy, c, offers[k].dir) && ClaimOk(w, cur, offers[k].claim)
    ensures best.profit > INT_MIN ==>
              && SeedOk(w, board, enemy, c, best.dir)
              && stepDist == DistOf(dist', Step(c.pos, best.dir))
              && stepEnemy == enemy[Step(c.pos, best.dir).i, Step(c.pos, best.dir).j]
  {
    var d;
    best, offers, pops, d := Drain(w, board, enemy, barr, cur, prev, c, isWarrior, q, dist, okDirs);
    dist' := d;
    stepDist, stepEnemy := 0, 0;
    if best.profit != INT_MIN {
      var p := Step(c.pos, best.dir);
      stepDist, stepEnemy := DistOf(d, p), enemy[p.i, p.j];
    }
  }

  /** The main loop of approach_target (AIEldar.cc:484-583): expand
      vertices until the queue is empty. */
  method Drain(w: World, board: array2<int>, enemy: array2<int>, barr: array2<int>,
               cur: map<Pos, BonusInfo>, prev: map<Pos, BonusInfo>, c: Citizen, isWarrior: bool,
               q: seq<Vertex>, dist: map<Pos, int>, ghost okDirs: set<Dir>)
    returns (best: Offer, ghost offers: seq<Offer>, ghost pops: seq<Vertex>, dist': map<Pos, int>)
    requires Board(w, board) && SeedQueue(w, board, enemy, barr, c, q, dist) && LiveEnemies(w, board, enemy)
    requires okDirs == set d | d in Directions && SeedOk(w, board, enemy, c, d)
    ensures SearchDone(w, board, enemy, barr, cur, prev, c, isWarrior, pops, dist')
    ensures offers == Offers(w, board, cur, prev, c, isWarrior, pops)
    ensures best == BestOf(offers)
    ensures forall k :: 0 <= k < |offers| ==>
              SeedOk(w, board, enemy, c, offers[k].dir) && ClaimOk(w, cur, offers[k].claim)
    ensures best.profit > INT_MIN ==> SeedOk(w, board, enemy, c, best.dir)
  {
    ghost var all := set i, j | 0 <= i < w.rows && 0 <= j < w.cols :: Pos(i, j);
    var visited: set<Pos> := {c.pos};
    var q := q;
    dist' := dist;
    best := NoOffer;
    offers, pops := [], [];
    Start(w, board, enemy, barr, cur, prev, c, isWarrior, q, dist, okDirs, all);
    assert Ordered(q, pops);
    visited, dist', best, offers, pops :=
      ExpandAll(w, board, enemy, barr, cur, prev, c, isWarrior, q, visited, dist', best, offers, pops, okDirs, all);
    Finish(w, board, enemy, barr, cur, prev, c, isWarrior, visited, dist', pops, best, offers, okDirs, all);
  }

  /** Expand vertices until the queue is empty. */
  method ExpandAll(w: World, board: array2<int>, enemy: array2<int>, barr: array2<int>,
                    cur: map<Pos, BonusInfo>, prev: map<Pos, BonusInfo>, c: Citizen, isWarrior: bool,
                    q: seq<Vertex>, visited: set<Pos>, dist: map<Pos, int>, best: Offer,
                    ghost offers: seq<Offer>, ghost pops: seq<Vertex>, ghost okDirs: set<Dir>, ghost all: set<Pos>)
    returns (visited': set<Pos>, dist': map<Pos, int>, best': Offer, ghost offers': seq<Offer>, ghost pops': seq<Vertex>)
    requires ExploreInv(w, board, enemy, barr, cur, prev, c, isWarrior, q, visited, dist, pops, best, offers, okDirs, all)
    requires Ordered(q, pops)
    ensures ExploreInv(w, board, enemy, barr, cur, prev, c, isWarrior, [], visited', dist', pops', best', offers', okDirs, all)
    ensures Ordered([], pops')
  {
    var q := q;
    visited', dist', best', offers', pops' := visited, dist, best, offers, pops;
    while q != []
      invariant ExploreInv(w, board, enemy, barr, cur, prev, c, isWarrior, q, visited', dist', pops', best', offers', okDirs, all)
      invariant Ordered(q, pops')
      decreases all - visited', |q|
    {
      q, visited', dist', best', offers', pops' :=
        ExploreStep(w, board, enemy, barr, cur, prev, c, isWarrior, q, visited', dist', best', offers', pops', okDirs, all);
    }
  }

  /** The loop invariant of the search. Besides the offers and the best
      target so far, it keeps Dijkstra's bookkeeping: every unexpanded cell
      with a distance has that distance queued, no queued vertex of an
      unexpanded cell is nearer than its cell's distance, every allowed
      first step is expanded or reachable at its seed cost, every relaxed
      neighbour of an expanded vertex is expanded or reachable at the
      relaxed distance, and every vertex is tracked to where it came from. */
  ghost predicate ExploreInv(w: World, board: array2<int>, enemy: array2<int>, barr: array2<int>,
                             cur: map<Pos, BonusInfo>, prev: map<Pos, BonusInfo>, c: Citizen, isWarrior: bool,
                             q: seq<Vertex>, visited: set<Pos>, dist: map<Pos, int>, pops: seq<Vertex>,
                             best: Offer, offers: seq<Offer>, okDirs: set<Dir>, all: set<Pos>)
    reads board, enemy, barr
  {
    && Frame(w, board, enemy, barr, c, okDirs, all)
    && Log(w, c, visited, pops, okDirs, all)
    && QueueOk(w, q, okDirs)
    && Scored(w, board, cur, prev, c, isWarrior, pops, best, offers, okDirs)
    && Pending(q, dist, visited)
    && SeedsReached(w, board, enemy, barr, c, visited, dist, pops)
    && Closure(w, board, enemy, barr, cur, prev, c, isWarrior, visited, dist, pops)
    && Tracked(w, board, enemy, barr, cur, prev, c, isWarrior, q, dist, pops)
  }

  /** The vertices are expanded nearest first: their popped distances never
      decrease, and nothing still queued is nearer than the last of them. */
  ghost predicate Ordered(q: seq<Vertex>, pops: seq<Vertex>)
  {
    && (forall a, b :: 0 <= a < b < |pops| ==> pops[a].dist <= pops[b].dist)
    && (pops != [] ==> forall v :: v in q ==> pops[|pops| - 1].dist <= v.dist)
  }

  /** Where the expanded and the queued vertices come from, and the
      distances of the expanded cells. */
  ghost predicate Tracked(w: World, board: array2<int>, enemy: array2<int>, barr: array2<int>,
                          cur: map<Pos, BonusInfo>, prev: map<Pos, BonusInfo>, c: Citizen, isWarrior: bool,
                          q: seq<Vertex>, dist: map<Pos, int>, pops: seq<Vertex>)
    requires Scene(w, board, enemy, barr) && InGrid(c.pos, w.rows, w.cols) && PopsInGrid(w, pops)
    reads board, enemy, barr
  {
    && Lineage(w, board, enemy, barr, cur, prev, c, isWarrior, pops)
    && (forall v {:trigger Origin(w, board, enemy, barr, cur, prev, c, isWarrior, pops, |pops|, v)} ::
          v in q ==> Origin(w, board, enemy, barr, cur, prev, c, isWarrior, pops, |pops|, v))
    && Pinned(w, board, enemy, barr, cur, prev, c, isWarrior, dist, pops)
  }

  /** What the search never changes: the grids, the origin, the set of all
      cells, and the allowed first steps. */
  ghost predicate Frame(w: World, board: array2<int>, enemy: array2<int>, barr: array2<int>, c: Citizen,
                        okDirs: set<Dir>, all: set<Pos>)
    reads board, enemy, barr
  {
    && Scene(w, board, enemy, barr) && LiveEnemies(w, board, enemy) && InGrid(c.pos, w.rows, w.cols)
    && all == (set i, j | 0 <= i < w.rows && 0 <= j < w.cols :: Pos(i, j))
    && Allowed(w, board, enemy, c, okDirs)
    && (forall d: Dir :: SeedOk(w, board, enemy, c, d) ==> d in okDirs)
  }

  /** The expanded vertices: on the grid, each cell once, never the origin,
      each with an allowed first step; with the origin, their cells are the
      visited ones. */
  ghost predicate Log(w: World, c: Citizen, visited: set<Pos>, pops: seq<Vertex>, okDirs: set<Dir>, all: set<Pos>)
  {
    && visited <= all
    && PopsInGrid(w, pops)
    && visited == {c.pos} + Cells(pops)
    && (forall k :: 0 <= k < |pops| ==> pops[k].pos != c.pos && pops[k].dir in okDirs)
    && (forall a, b :: 0 <= a < b < |pops| ==> pops[a].pos != pops[b].pos)
  }

  /** The offers are those of the expanded vertices, the best target is the
      first most profitable of them, and each is an allowed first step with
      a claim the citizen may make. */
  ghost predicate Scored(w: World, board: array2<int>, cur: map<Pos, BonusInfo>, prev: map<Pos, BonusInfo>,
                         c: Citizen, isWarrior: bool, pops: seq<Vertex>, best: Offer, offers: seq<Offer>,
                         okDirs: set<Dir>)
    reads board
  {
    && Board(w, board) && PopsInGrid(w, pops)
    && offers == Offers(w, board, cur, prev, c, isWarrior, pops)
    && best == BestOf(offers)
    && OffersOk(w, cur, offers, okDirs)
  }

  /** Every unexpanded cell with a distance has it queued; no queued vertex
      of an unexpanded cell is nearer than that distance; every queued cell
      has one. */
  ghost predicate Pending(q: seq<Vertex>, dist: map<Pos, int>, visited: set<Pos>)
  {
    && (forall v :: v in q ==> v.pos in dist)
    && (forall v :: v in q && v.pos !in visited ==> dist[v.pos] <= v.dist)
    && (forall p :: p in dist && p !in visited ==> exists v :: v in q && v.pos == p && v.dist == dist[p])
  }

  /** Every allowed first step is still to expand at no more than its seed
      cost, or was expanded at no more than that. */
  ghost predicate SeedsReached(w: World, board: array2<int>, enemy: array2<int>, barr: array2<int>, c: Citizen,
                               visited: set<Pos>, dist: map<Pos, int>, pops: seq<Vertex>)
    requires Grids(w, board, enemy, barr)
    reads board, enemy, barr
  {
    forall d: Dir :: SeedReached(w, board, enemy, barr, c, visited, dist, pops, d)
  }

  ghost predicate SeedReached(w: World, board: array2<int>, enemy: array2<int>, barr: array2<int>, c: Citizen,
                              visited: set<Pos>, dist: map<Pos, int>, pops: seq<Vertex>, d: Dir)
    requires Grids(w, board, enemy, barr)
    reads board, enemy, barr
  {
    SeedOk(w, board, enemy, c, d) ==>
      var p := Step(c.pos, d);
      var cost := StepCost(w, board, enemy, barr, c, p);
      (p !in visited && p in dist && dist[p] <= cost) ||
      (exists j :: 0 <= j < |pops| && pops[j].pos == p && pops[j].dist <= cost)
  }

  /** Every relaxed neighbour of an expanded vertex, other than the origin,
      is still to expand at no more than the distance relaxed to it, or was
      expanded earlier, or later at no more than that distance. */
  ghost predicate Closure(w: World, board: array2<int>, enemy: array2<int>, barr: array2<int>,
                          cur: map<Pos, BonusInfo>, prev: map<Pos, BonusInfo>, c: Citizen, isWarrior: bool,
                          visited: set<Pos>, dist: map<Pos, int>, pops: seq<Vertex>)
    requires Scene(w, board, enemy, barr) && PopsInGrid(w, pops)
    reads board, enemy, barr
  {
    forall k, d: Dir :: 0 <= k < |pops| ==> Reached(w, board, enemy, barr, cur, prev, c, isWarrior, visited, dist, pops, k, d)
  }

  /** The invariant holds before the first turn of the main loop. */
  lemma Start(w: World, board: array2<int>, enemy: array2<int>, barr: array2<int>,
              cur: map<Pos, BonusInfo>, prev: map<Pos, BonusInfo>, c: Citizen, isWarrior: bool,
              q: seq<Vertex>, dist: map<Pos, int>, okDirs: set<Dir>, all: set<Pos>)
    requires Board(w, board) && SeedQueue(w, board, enemy, barr, c, q, dist) && LiveEnemies(w, board, enemy)
    requires okDirs == set d | d in Directions && SeedOk(w, board, enemy, c, d)
    requires all == (set i, j | 0 <= i < w.rows && 0 <= j < w.cols :: Pos(i, j))
    ensures ExploreInv(w, board, enemy, barr, cur, prev, c, isWarrior, q, {c.pos}, dist, [], NoOffer, [], okDirs, all)
  {
    assert c.pos == Pos(c.pos.i, c.pos.j);
    forall d: Dir | SeedOk(w, board, enemy, c, d)
      ensures d in okDirs
    {
      assert Directions[Rank(d)] == d;
    }
    forall v | v in q
      ensures InGrid(v.pos, w.rows, w.cols) && v.dir in okDirs
    {
      assert SeedOk(w, board, enemy, c, v.dir);
    }
    forall d: Dir
      ensures SeedReached(w, board, enemy, barr, c, {c.pos}, dist, [], d)
    {
      if SeedOk(w, board, enemy, c, d) {
        assert SeedVertex(w, board, enemy, barr, c, d) in q;
      }
    }
    assert Cells([]) == {};
    StartTracked(w, board, enemy, barr, cur, prev, c, isWarrior, q, dist);
  }

  /** Once the queue is empty the search is done. */
  lemma Finish(w: World, board: array2<int>, enemy: array2<int>, barr: array2<int>,
               cur: map<Pos, BonusInfo>, prev: map<Pos, BonusInfo>, c: Citizen, isWarrior: bool,
               visited: set<Pos>, dist: map<Pos, int>, pops: seq<Vertex>,
               best: Offer, offers: seq<Offer>, okDirs: set<Dir>, all: set<Pos>)
    requires ExploreInv(w, board, enemy, barr, cur, prev, c, isWarrior, [], visited, dist, pops, best, offers, okDirs, all)
    requires Ordered([], pops)
    ensures SearchDone(w, board, enemy, barr, cur, prev, c, isWarrior, pops, dist)
    ensures forall k :: 0 <= k < |offers| ==>
              SeedOk(w, board, enemy, c, offers[k].dir) && ClaimOk(w, cur, offers[k].claim)
    ensures best.profit > INT_MIN ==> SeedOk(w, board, enemy, c, best.dir)
  {
    Drained(dist, visited);
    DrainedLog(w, board, enemy, c, visited, dist, pops, okDirs, all);
    DrainedSeeds(w, board, enemy, barr, c, visited, dist, pops);
    DrainedClosure(w, board, enemy, barr, cur, prev, c, isWarrior, visited, dist, pops);
    DrainedOffers(w, board, enemy, c, cur, best, offers, okDirs);
  }

  /** The expanded vertices avoid the origin, start with allowed first
      steps, and with nothing queued account for every cell with a distance. */
  lemma DrainedLog(w: World, board: array2<int>, enemy: array2<int>, c: Citizen,
                   visited: set<Pos>, dist: map<Pos, int>, pops: seq<Vertex>, okDirs: set<Dir>, all: set<Pos>)
    requires Sized(w, board) && enemy.Length0 == w.rows && enemy.Length1 == w.cols
    requires Log(w, c, visited, pops, okDirs, all) && Allowed(w, board, enemy, c, okDirs)
    requires forall p :: p in dist ==> p in visited
    ensures forall k :: 0 <= k < |pops| ==> pops[k].pos != c.pos && SeedOk(w, board, enemy, c, pops[k].dir)
    ensures forall p :: p in dist ==> p == c.pos || p in Cells(pops)
  {
  }

  /** Every offer, and a real best target, starts with an allowed first step. */
  lemma DrainedOffers(w: World, board: array2<int>, enemy: array2<int>, c: Citizen, cur: map<Pos, BonusInfo>,
                      best: Offer, offers: seq<Offer>, okDirs: set<Dir>)
    requires Sized(w, board) && enemy.Length0 == w.rows && enemy.Length1 == w.cols
    requires OffersOk(w, cur, offers, okDirs) && Allowed(w, board, enemy, c, okDirs) && best == BestOf(offers)
    ensures forall k :: 0 <= k < |offers| ==>
              SeedOk(w, board, enemy, c, offers[k].dir) && ClaimOk(w, cur, offers[k].claim)
    ensures best.profit > INT_MIN ==> SeedOk(w, board, enemy, c, best.dir)
  {
    forall k | 0 <= k < |offers|
      ensures SeedOk(w, board, enemy, c, offers[k].dir) && ClaimOk(w, cur, offers[k].claim)
    {
      assert offers[k].dir in okDirs;
    }
    if best.profit > INT_MIN {
      assert best in offers;
      var k :| 0 <= k < |offers| && offers[k] == best;
      assert best.dir in okDirs;
    }
  }

  /** With nothing queued, every cell with a distance was expanded. */
  lemma Drained(dist: map<Pos, int>, visited: set<Pos>)
    requires Pending([], dist, visited)
    ensures forall p :: p in dist ==> p in visited
  {
  }

  /** With nothing queued, every allowed first step was expanded. */
  lemma DrainedSeeds(w: World, board: array2<int>, enemy: array2<int>, barr: array2<int>, c: Citizen,
                     visited: set<Pos>, dist: map<Pos, int>, pops: seq<Vertex>)
    requires Grids(w, board, enemy, barr) && InGrid(c.pos, w.rows, w.cols)
    requires SeedsReached(w, board, enemy, barr, c, visited, dist, pops)
    requires forall p :: p in dist ==> p in visited
    ensures forall d: Dir :: SeedExpanded(w, board, enemy, barr, c, pops, d)
  {
    forall d: Dir
      ensures SeedExpanded(w, board, enemy, barr, c, pops, d)
    {
      assert SeedReached(w, board, enemy, barr, c, visited, dist, pops, d);
    }
  }

  /** With nothing queued, the search is closed. */
  lemma DrainedClosure(w: World, board: array2<int>, enemy: array2<int>, barr: array2<int>,
                       cur: map<Pos, BonusInfo>, prev: map<Pos, BonusInfo>, c: Citizen, isWarrior: bool,
                       visited: set<Pos>, dist: map<Pos, int>, pops: seq<Vertex>)
    requires Scene(w, board, enemy, barr) && PopsInGrid(w, pops)
    requires Closure(w, board, enemy, barr, cur, prev, c, isWarrior, visited, dist, pops)
    requires forall p :: p in dist ==> p in visited
    ensures ClosedSearch(w, board, enemy, barr, cur, prev, c, isWarrior, pops)
  {
    forall k, d: Dir | 0 <= k < |pops|
      ensures Covered(w, board, enemy, barr, cur, prev, c, isWarrior, pops, k, d)
    {
      assert Reached(w, board, enemy, barr, cur, prev, c, isWarrior, visited, dist, pops, k, d);
    }
  }

  /** okDirs holds allowed first steps only. */
  ghost predicate Allowed(w: World, board: array2<int>, enemy: array2<int>, c: Citizen, okDirs: set<Dir>)
    requires board.Length0 == w.rows && board.Length1 == w.cols
    requires enemy.Length0 == w.rows && enemy.Length1 == w.cols
    reads board, enemy
  {
    forall d :: d in okDirs ==> SeedOk(w, board, enemy, c, d)
  }

  /** Every queued vertex lies on the grid and carries an allowed first step. */
  predicate QueueOk(w: World, q: seq<Vertex>, okDirs: set<Dir>)
  {
    forall v :: v in q ==> InGrid(v.pos, w.rows, w.cols) && v.dir in okDirs
  }

  /** Every offer starts with an allowed first step and claims only a
      weapon the citizen is the closest to. */
  predicate OffersOk(w: World, cur: map<Pos, BonusInfo>, offers: seq<Offer>, okDirs: set<Dir>)
    requires w.WellFormed()
  {
    forall k :: 0 <= k < |offers| ==> offers[k].dir in okDirs && ClaimOk(w, cur, offers[k].claim)
  }

  /** The first loop of approach_target (AIEldar.cc:438-465): an obvious
      move in the first direction that has one; otherwise exactly the safe
      admissible first steps are queued, each at its seed cost, with the
      origin at distance 0. */
  method SeedSafe(w: World, board: array2<int>, enemy: array2<int>, barr: array2<int>,
                  c: Citizen, isWarrior: bool)
    returns (shortcut: Option<Dir>, q: seq<Vertex>, dist: map<Pos, int>)
    requires Grids(w, board, enemy, barr) && InGrid(c.pos, w.rows, w.cols)
    ensures shortcut.Some? ==> FirstObvious(w, board, enemy, barr, c, isWarrior, shortcut.value)
    ensures shortcut.None? ==> NoObviousMove(w, board, enemy, barr, c, isWarrior)
    ensures forall v :: v in q ==>
              SafeSeed(w, board, enemy, c, v.dir) && v == SeedVertex(w, board, enemy, barr, c, v.dir)
    ensures shortcut.None? ==>
              forall d: Dir :: SafeSeed(w, board, enemy, c, d) ==> SeedVertex(w, board, enemy, barr, c, d) in q
    ensures shortcut.None? && q == [] ==> !SafeSeedExists(w, board, enemy, c)
    ensures forall p :: p in dist <==> p == c.pos || exists v :: v in q && v.pos == p
    ensures dist[c.pos] == 0 && forall v :: v in q ==> dist[v.pos] == v.dist
  {
    q, dist := [], map[c.pos := 0];
    for s := 0 to |Directions|
      invariant forall k :: 0 <= k < s ==> !NoBrainerAt(w, board, enemy, barr, c, isWarrior, Directions[k])
      invariant SeedLog(w, board, enemy, barr, c, true, s, q, dist)
    {
      var d := Directions[s];
      var obvious, seed := TrySeed(w, board, enemy, barr, c, isWarrior, d);
      if obvious {
        shortcut := Some(d);
        forall d' | Rank(d') < Rank(d)
          ensures !NoBrainerAt(w, board, enemy, barr, c, isWarrior, d')
        {
          assert Directions[Rank(d')] == d';
        }
        return;
      }
      forall k | 0 <= k < s + 1
        ensures !NoBrainerAt(w, board, enemy, barr, c, isWarrior, Directions[k])
      {
      }
      if seed.Some? {
        SeedPush(w, board, enemy, barr, c, true, s, q, dist, seed.value);
        dist := dist[seed.value.pos := seed.value.dist];
        q := q + [seed.value];
      } else {
        SeedSkip(w, board, enemy, barr, c, true, s, q, dist);
      }
    }
    shortcut := None;
    forall d | true
      ensures !NoBrainerAt(w, board, enemy, barr, c, isWarrior, d)
    {
      assert Directions[Rank(d)] == d;
    }
    SeedDone(w, board, enemy, barr, c, true, q, dist);
  }

  /** The first step in direction d is queued by the loop: a safe one in
      the first loop, any admissible one in the second. */
  predicate Eligible(w: World, board: array2<int>, enemy: array2<int>, c: Citizen, safeOnly: bool, d: Dir)
    requires board.Length0 == w.rows && board.Length1 == w.cols
    requires enemy.Length0 == w.rows && enemy.Length1 == w.cols
    reads board, enemy
  {
    if safeOnly then SafeSeed(w, board, enemy, c, d) else Seedable(w, board, enemy, c, d)
  }

  /** What a seeding loop has done after the first s directions: it has
      queued exactly the eligible ones among them, each at its seed cost,
      and recorded their distances next to the origin's 0. */
  ghost predicate SeedLog(w: World, board: array2<int>, enemy: array2<int>, barr: array2<int>,
                          c: Citizen, safeOnly: bool, s: nat, q: seq<Vertex>, dist: map<Pos, int>)
    requires Grids(w, board, enemy, barr)
    reads board, enemy, barr
  {
    && (forall v :: v in q ==>
          Eligible(w, board, enemy, c, safeOnly, v.dir) && v == SeedVertex(w, board, enemy, barr, c, v.dir))
    && (forall v :: v in q ==> Rank(v.dir) < s)
    && (forall k :: 0 <= k < s <= |Directions| && Eligible(w, board, enemy, c, safeOnly, Directions[k]) ==>
          SeedVertex(w, board, enemy, barr, c, Directions[k]) in q)
    && (forall p :: p in dist <==> p == c.pos || exists v :: v in q && v.pos == p)
    && c.pos in dist && dist[c.pos] == 0 && (forall v :: v in q ==> dist[v.pos] == v.dist)
  }

  /** Queueing the eligible s-th first step extends the seeding loop's
      invariant by one direction. */
  lemma SeedPush(w: World, board: array2<int>, enemy: array2<int>, barr: array2<int>,
                 c: Citizen, safeOnly: bool, s: nat, q: seq<Vertex>, dist: map<Pos, int>, v: Vertex)
    requires Grids(w, board, enemy, barr) && s < |Directions|
    requires SeedLog(w, board, enemy, barr, c, safeOnly, s, q, dist)
    requires Eligible(w, board, enemy, c, safeOnly, Directions[s])
    requires v == SeedVertex(w, board, enemy, barr, c, Directions[s])
    ensures SeedLog(w, board, enemy, barr, c, safeOnly, s + 1, q + [v], dist[v.pos := v.dist])
  {
    SeedFresh(c, q, Directions[s]);
    var q', dist' := q + [v], dist[v.pos := v.dist];
    forall k | 0 <= k < s + 1 && Eligible(w, board, enemy, c, safeOnly, Directions[k])
      ensures SeedVertex(w, board, enemy, barr, c, Directions[k]) in q'
    {
      if k < s {
        assert SeedVertex(w, board, enemy, barr, c, Directions[k]) in q;
      }
    }
    forall p | p in dist'
      ensures p == c.pos || exists v' :: v' in q' && v'.pos == p
    {
      if p != v.pos && p != c.pos {
        var v' :| v' in q && v'.pos == p;
        assert v' in q';
      }
    }
  }

  /** Passing over an ineligible s-th first step extends the seeding loop's
      invariant by one direction. */
  lemma SeedSkip(w: World, board: array2<int>, enemy: array2<int>, barr: array2<int>,
                 c: Citizen, safeOnly: bool, s: nat, q: seq<Vertex>, dist: map<Pos, int>)
    requires Grids(w, board, enemy, barr) && s < |Directions|
    requires SeedLog(w, board, enemy, barr, c, safeOnly, s, q, dist)
    requires !Eligible(w, board, enemy, c, safeOnly, Directions[s])
    ensures SeedLog(w, board, enemy, barr, c, safeOnly, s + 1, q, dist)
  {
  }

  /** After all four directions the loop has queued every eligible first
      step. */
  lemma SeedDone(w: World, board: array2<int>, enemy: array2<int>, barr: array2<int>,
                 c: Citizen, safeOnly: bool, q: seq<Vertex>, dist: map<Pos, int>)
    requires Grids(w, board, enemy, barr)
    requires SeedLog(w, board, enemy, barr, c, safeOnly, |Directions|, q, dist)
    ensures forall d: Dir :: Eligible(w, board, enemy, c, safeOnly, d) ==> SeedVertex(w, board, enemy, barr, c, d) in q
  {
    forall d: Dir | Eligible(w, board, enemy, c, safeOnly, d)
      ensures SeedVertex(w, board, enemy, barr, c, d) in q
    {
      assert Directions[Rank(d)] == d;
    }
  }

  /** A first step in a direction not used yet lands on a cell no queued
      first step lands on, and never on the origin. */
  lemma SeedFresh(c: Citizen, q: seq<Vertex>, d: Dir)
    requires forall v :: v in q ==> v.pos == Step(c.pos, v.dir) && Rank(v.dir) < Rank(d)
    ensures Step(c.pos, d) != c.pos
    ensures forall v :: v in q ==> v.pos != Step(c.pos, d)
  {
  }

  /** An admissible first step that is safe. */
  predicate SafeSeed(w: World, board: array2<int>, enemy: array2<int>, c: Citizen, d: Dir)
    requires board.Length0 == w.rows && board.Length1 == w.cols
    requires enemy.Length0 == w.rows && enemy.Length1 == w.cols
    reads board, enemy
  {
    Seedable(w, board, enemy, c, d) && Safe(w, enemy, MyWeapon(c.weapon), Step(c.pos, d))
  }

  /** One turn of the first loop: whether the step in direction d is an
      obvious move, and otherwise the vertex queued for it if it is a safe
      admissible step, at one turn plus its movement penalties. */
  method TrySeed(w: World, board: array2<int>, enemy: array2<int>, barr: array2<int>,
                 c: Citizen, isWarrior: bool, d: Dir)
    returns (obvious: bool, seed: Option<Vertex>)
    requires Grids(w, board, enemy, barr)
    ensures obvious == NoBrainerAt(w, board, enemy, barr, c, isWarrior, d)
    ensures !obvious ==> (seed.Some? <==> SafeSeed(w, board, enemy, c, d))
    ensures seed.Some? ==>
              InGrid(Step(c.pos, d), w.rows, w.cols) && seed.value == SeedVertex(w, board, enemy, barr, c, d)
  {
    var weapon := MyWeapon(c.weapon);
    var p := Step(c.pos, d);
    obvious, seed := false, None;
    if InGrid(p, w.rows, w.cols) {
      var nb := NoBrainer(board[p.i, p.j], enemy[p.i, p.j], barr[p.i, p.j], weapon, isWarrior,
                          !w.IsDay(), w.params.lifeLostInAttack);
      if nb.0 {
        obvious := true;
        return;
      }
      var safe := IsSafe(w, enemy, weapon, p);
      if safe && Admissible(w, board, enemy, weapon, p) {
        var distance := 1 + MovementPenalty(board[p.i, p.j], enemy[p.i, p.j], barr[p.i, p.j], weapon, w.params);
        seed := Some(Vertex(distance, p, d));
      }
    }
  }

  /** The second loop of approach_target (AIEldar.cc:467-481), run when no
      safe first step exists: exactly the admissible first steps are
      queued, each at its seed cost. */
  method SeedAny(w: World, board: array2<int>, enemy: array2<int>, barr: array2<int>, c: Citizen)
    returns (q: seq<Vertex>, dist: map<Pos, int>)
    requires Grids(w, board, enemy, barr) && InGrid(c.pos, w.rows, w.cols)
    ensures forall v :: v in q ==>
              Seedable(w, board, enemy, c, v.dir) && v == SeedVertex(w, board, enemy, barr, c, v.dir)
    ensures forall d: Dir :: Seedable(w, board, enemy, c, d) ==> SeedVertex(w, board, enemy, barr, c, d) in q
    ensures forall p :: p in dist <==> p == c.pos || exists v :: v in q && v.pos == p
    ensures dist[c.pos] == 0 && forall v :: v in q ==> dist[v.pos] == v.dist
  {
    var weapon := MyWeapon(c.weapon);
    q, dist := [], map[c.pos := 0];
    for s := 0 to |Directions|
      invariant SeedLog(w, board, enemy, barr, c, false, s, q, dist)
    {
      var d := Directions[s];
      var p := Step(c.pos, d);
      if InGrid(p, w.rows, w.cols) && Admissible(w, board, enemy, weapon, p) {
        var distance := 1 + MovementPenalty(board[p.i, p.j], enemy[p.i, p.j], barr[p.i, p.j], weapon, w.params);
        SeedPush(w, board, enemy, barr, c, false, s, q, dist, Vertex(distance, p, d));
        dist := dist[p := distance];
        q := q + [Vertex(distance, p, d)];
      } else {
        SeedSkip(w, board, enemy, barr, c, false, s, q, dist);
      }
    }
    SeedDone(w, board, enemy, barr, c, false, q, dist);
  }

  /** The inner loop of AIEldar.cc:455-458: p is safe. */
  method IsSafe(w: World, enemy: array2<int>, weapon: int, p: Pos) returns (safe: bool)
    requires enemy.Length0 == w.rows && enemy.Length1 == w.cols
    ensures safe == Safe(w, enemy, weapon, p)
  {
    safe := true;
    for s := 0 to |Directions|
      invariant safe <==> forall k :: 0 <= k < s && InGrid(Step(p, Directions[k]), w.rows, w.cols) ==>
                  !IsDanger(enemy[Step(p, Directions[k]).i, Step(p, Directions[k]).j], weapon, w.NoDamageWindow())
    {
      var e := Step(p, Directions[s]);
      if InGrid(e, w.rows, w.cols) && IsDanger(enemy[e.i, e.j], weapon, w.NoDamageWindow()) {
        safe := false;
      }
    }
    forall e: Dir
      ensures InGrid(Step(p, e), w.rows, w.cols) ==>
                (!IsDanger(enemy[Step(p, e).i, Step(p, e).j], weapon, w.NoDamageWindow()) <== safe)
    {
      assert Directions[Rank(e)] == e;
    }
    if !safe {
      var k :| 0 <= k < |Directions| && InGrid(Step(p, Directions[k]), w.rows, w.cols) &&
               IsDanger(enemy[Step(p, Directions[k]).i, Step(p, Directions[k]).j], weapon, w.NoDamageWindow());
      assert !Safe(w, enemy, weapon, p) by {
        var e := Directions[k];
        assert InGrid(Step(p, e), w.rows, w.cols);
      }
    }
  }

  /** v is a nearest vertex of q. */
  ghost predicate Nearest(q: seq<Vertex>, v: Vertex)
  {
    v in q && forall x :: x in q ==> v.dist <= x.dist
  }

  /** One turn of the main loop of AIEldar.cc:484-583: pop a nearest
      vertex; skip it if its cell was expanded; otherwise expand it at its
      cell's distance: score it, record its offer, and search on past it
      unless it is an enemy to attack. */
  method ExploreStep(w: World, board: array2<int>, enemy: array2<int>, barr: array2<int>,
                     cur: map<Pos, BonusInfo>, prev: map<Pos, BonusInfo>, c: Citizen, isWarrior: bool,
                     q: seq<Vertex>, visited: set<Pos>, dist: map<Pos, int>, best: Offer,
                     ghost offers: seq<Offer>, ghost pops: seq<Vertex>, ghost okDirs: set<Dir>, ghost all: set<Pos>)
    returns (q': seq<Vertex>, visited': set<Pos>, dist': map<Pos, int>, best': Offer,
             ghost offers': seq<Offer>, ghost pops': seq<Vertex>)
    requires ExploreInv(w, board, enemy, barr, cur, prev, c, isWarrior, q, visited, dist, pops, best, offers, okDirs, all)
    requires q != [] && Ordered(q, pops)
    ensures ExploreInv(w, board, enemy, barr, cur, prev, c, isWarrior, q', visited', dist', pops', best', offers', okDirs, all)
    ensures Ordered(q', pops')
    ensures all - visited' < all - visited || (visited' == visited && |q'| < |q|)
    ensures pops' == pops ||
            (&& |pops'| == |pops| + 1 && pops'[..|pops|] == pops
             && Nearest(q, pops'[|pops|]) && pops'[|pops|].pos !in visited
             && pops'[|pops|].pos in dist && pops'[|pops|].dist == dist[pops'[|pops|].pos])
  {
    var t := TopVertex(q);
    var top := q[t];
    TopVertexIsNearest(q);
    q' := RemoveAt(q, t);
    visited', dist', best', offers', pops' := visited, dist, best, offers, pops;
    var u := top.pos;
    if u in visited {
      Skipped(w, board, enemy, barr, cur, prev, c, isWarrior, q, t, visited, dist, pops, best, offers, okDirs, all);
      return;
    }
    assert top in q;
    q', visited', dist', best', offers', pops' :=
      Visit(w, board, enemy, barr, cur, prev, c, isWarrior, q, t, visited, dist, best, offers, pops, okDirs, all);
    PoppedOrdered(q, t, pops, q');
  }

  /** What the turn that expands q[t] starts from: the popped vertex is on
      the grid at its cell's exact distance with an allowed first step, and
      the rest of the queue keeps allowed first steps. */
  lemma Popped(w: World, board: array2<int>, enemy: array2<int>, barr: array2<int>,
               cur: map<Pos, BonusInfo>, prev: map<Pos, BonusInfo>, c: Citizen, isWarrior: bool,
               q: seq<Vertex>, t: nat, visited: set<Pos>, dist: map<Pos, int>, pops: seq<Vertex>,
               best: Offer, offers: seq<Offer>, okDirs: set<Dir>, all: set<Pos>)
    requires ExploreInv(w, board, enemy, barr, cur, prev, c, isWarrior, q, visited, dist, pops, best, offers, okDirs, all)
    requires q != [] && t == TopVertex(q) && q[t].pos !in visited
    ensures Scene(w, board, enemy, barr) && Board(w, board)
    ensures InGrid(q[t].pos, w.rows, w.cols) && q[t].dir in okDirs
    ensures q[t].pos in dist && q[t].dist == dist[q[t].pos]
    ensures QueueOk(w, RemoveAt(q, t), okDirs) && PopsInGrid(w, pops + [q[t]])
  {
    PopExact(q, t, dist, visited);
    assert q[t] in q;
    var r := pops + [q[t]];
    assert forall k :: 0 <= k < |pops| ==> r[k] == pops[k];
  }

  /** The turn of the main loop that expands the popped vertex q[t]: its
      cell is marked visited at its exact distance, and its offer scored. */
  method Visit(w: World, board: array2<int>, enemy: array2<int>, barr: array2<int>,
               cur: map<Pos, BonusInfo>, prev: map<Pos, BonusInfo>, c: Citizen, isWarrior: bool,
               q: seq<Vertex>, t: nat, visited: set<Pos>, dist: map<Pos, int>, best: Offer,
               ghost offers: seq<Offer>, ghost pops: seq<Vertex>, ghost okDirs: set<Dir>, ghost all: set<Pos>)
    returns (q': seq<Vertex>, visited': set<Pos>, dist': map<Pos, int>, best': Offer,
             ghost offers': seq<Offer>, ghost pops': seq<Vertex>)
    requires ExploreInv(w, board, enemy, barr, cur, prev, c, isWarrior, q, visited, dist, pops, best, offers, okDirs, all)
    requires q != [] && t == TopVertex(q) && q[t].pos !in visited
    ensures ExploreInv(w, board, enemy, barr, cur, prev, c, isWarrior, q', visited', dist', pops', best', offers', okDirs, all)
    ensures visited' == visited + {q[t].pos} && pops' == pops + [q[t]]
    ensures q[t].pos in dist && q[t].dist == dist[q[t].pos]
    ensures forall v :: v in q' ==> v in RemoveAt(q, t) || q[t].dist <= v.dist
  {
    var top := q[t];
    var u := top.pos;
    Popped(w, board, enemy, barr, cur, prev, c, isWarrior, q, t, visited, dist, pops, best, offers, okDirs, all);
    var distance := dist[u];
    visited' := visited + {u};
    var sc := CellScore(w, board, cur, prev, c, isWarrior, top);
    best' := Better(OfferFor(sc, top.dir, u, distance), best);
    pops' := pops + [top];
    offers' := Offers(w, board, cur, prev, c, isWarrior, pops');
    q', dist' := Advance(w, board, enemy, barr, cur, prev, c, isWarrior, q, t, visited, dist, best, offers, pops,
                         okDirs, all, visited', best', offers', pops');
  }

  /** The search goes on past the popped vertex q[t], whose cell is now
      visited and whose offer is scored. */
  method Advance(w: World, board: array2<int>, enemy: array2<int>, barr: array2<int>,
                 cur: map<Pos, BonusInfo>, prev: map<Pos, BonusInfo>, c: Citizen, isWarrior: bool,
                 q: seq<Vertex>, t: nat, visited: set<Pos>, dist: map<Pos, int>, best: Offer,
                 ghost offers: seq<Offer>, ghost pops: seq<Vertex>, ghost okDirs: set<Dir>, ghost all: set<Pos>,
                 ghost visited': set<Pos>, ghost best': Offer, ghost offers': seq<Offer>, ghost pops': seq<Vertex>)
    returns (q': seq<Vertex>, dist': map<Pos, int>)
    requires ExploreInv(w, board, enemy, barr, cur, prev, c, isWarrior, q, visited, dist, pops, best, offers, okDirs, all)
    requires q != [] && t == TopVertex(q) && q[t].pos !in visited
    requires InGrid(q[t].pos, w.rows, w.cols) && q[t].dir in okDirs
    requires q[t].pos in dist && q[t].dist == dist[q[t].pos] && QueueOk(w, RemoveAt(q, t), okDirs)
    requires best' == Better(OfferFor(CellScore(w, board, cur, prev, c, isWarrior, q[t]), q[t].dir, q[t].pos, q[t].dist), best)
    requires visited' == visited + {q[t].pos} && pops' == pops + [q[t]]
    requires offers' == Offers(w, board, cur, prev, c, isWarrior, pops')
    ensures ExploreInv(w, board, enemy, barr, cur, prev, c, isWarrior, q', visited', dist', pops', best', offers', okDirs, all)
    ensures forall v :: v in q' ==> v in RemoveAt(q, t) || q[t].dist <= v.dist
  {
    var q1 := RemoveAt(q, t);
    q', dist' := GoPast(w, board, enemy, barr, cur, prev, c, isWarrior, q[t], q1, dist, okDirs);
    Expanded(w, board, enemy, barr, cur, prev, c, isWarrior, q, t, visited, dist, pops, best, offers, okDirs, all,
             q1, q', visited', dist', best', offers', pops');
  }

  /** The end of one turn of the main loop (AIEldar.cc:550, 566-582): a
      weapon a teammate will take costs DETER_PENALTY more to pass
      through; the search goes on past any cell but an enemy to attack. */
  method GoPast(w: World, board: array2<int>, enemy: array2<int>, barr: array2<int>,
                cur: map<Pos, BonusInfo>, prev: map<Pos, BonusInfo>, c: Citizen, isWarrior: bool,
                top: Vertex, q: seq<Vertex>, dist: map<Pos, int>, ghost okDirs: set<Dir>)
    returns (q': seq<Vertex>, dist': map<Pos, int>)
    requires Scene(w, board, enemy, barr) && LiveEnemies(w, board, enemy) && InGrid(top.pos, w.rows, w.cols)
    requires top.dir in okDirs && QueueOk(w, q, okDirs) && top.pos in dist && top.dist == dist[top.pos]
    ensures QueueOk(w, q', okDirs)
    ensures Expansion(w, board, enemy, barr, cur, prev, c, isWarrior, dist, top, q, q', dist')
    ensures forall v :: v in q' ==> v in q || top.dist <= v.dist
  {
    var sc := CellScore(w, board, cur, prev, c, isWarrior, top);
    var u := top.pos;
    dist' := dist;
    if sc.Deter? {
      dist' := dist'[u := top.dist + DETER_PENALTY];
    }
    q' := q;
    if !sc.Attack? {
      q', dist' := Expand(w, board, enemy, barr, c, u, top.dir, q', dist', okDirs);
    }
    ExpansionAbove(w, board, enemy, barr, cur, prev, c, isWarrior, top, dist, q, q', dist');
  }

  /** The popped vertex of a cell not expanded yet carries its cell's
      distance. */
  lemma PopExact(q: seq<Vertex>, t: nat, dist: map<Pos, int>, visited: set<Pos>)
    requires Pending(q, dist, visited) && |q| > 0 && t == TopVertex(q) && q[t].pos !in visited
    ensures q[t].pos in dist && q[t].dist == dist[q[t].pos]
  {
    TopVertexIsNearest(q);
    assert q[t] in q;
    var e :| e in q && e.pos == q[t].pos && e.dist == dist[q[t].pos];
  }

  /** Popping a vertex of an expanded cell keeps the invariant. */
  lemma Skipped(w: World, board: array2<int>, enemy: array2<int>, barr: array2<int>,
                cur: map<Pos, BonusInfo>, prev: map<Pos, BonusInfo>, c: Citizen, isWarrior: bool,
                q: seq<Vertex>, t: nat, visited: set<Pos>, dist: map<Pos, int>, pops: seq<Vertex>,
                best: Offer, offers: seq<Offer>, okDirs: set<Dir>, all: set<Pos>)
    requires ExploreInv(w, board, enemy, barr, cur, prev, c, isWarrior, q, visited, dist, pops, best, offers, okDirs, all)
    requires |q| > 0 && t < |q| && q[t].pos in visited
    ensures ExploreInv(w, board, enemy, barr, cur, prev, c, isWarrior, RemoveAt(q, t), visited, dist, pops, best, offers, okDirs, all)
  {
    var r := RemoveAt(q, t);
    forall p | p in dist && p !in visited
      ensures exists v :: v in r && v.pos == p && v.dist == dist[p]
    {
      var v :| v in q && v.pos == p && v.dist == dist[p];
      assert v != q[t];
    }
  }

  /** Expanding a popped vertex keeps the invariant: it joins the log of
      expanded vertices, its offer the list of offers, and its relaxed
      neighbours the bookkeeping. */
  lemma Expanded(w: World, board: array2<int>, enemy: array2<int>, barr: array2<int>,
                 cur: map<Pos, BonusInfo>, prev: map<Pos, BonusInfo>, c: Citizen, isWarrior: bool,
                 q: seq<Vertex>, t: nat, visited: set<Pos>, dist: map<Pos, int>, pops: seq<Vertex>,
                 best: Offer, offers: seq<Offer>, okDirs: set<Dir>, all: set<Pos>,
                 q1: seq<Vertex>, q': seq<Vertex>, visited': set<Pos>, dist': map<Pos, int>, best': Offer,
                 offers': seq<Offer>, pops': seq<Vertex>)
    requires ExploreInv(w, board, enemy, barr, cur, prev, c, isWarrior, q, visited, dist, pops, best, offers, okDirs, all)
    requires |q| > 0 && t == TopVertex(q) && q[t].pos !in visited && q[t].pos in dist && q[t].dist == dist[q[t].pos]
    requires q1 == RemoveAt(q, t) && QueueOk(w, q', okDirs)
    requires InGrid(q[t].pos, w.rows, w.cols) && Expansion(w, board, enemy, barr, cur, prev, c, isWarrior, dist, q[t], q1, q', dist')
    requires best' == Better(OfferFor(CellScore(w, board, cur, prev, c, isWarrior, q[t]), q[t].dir, q[t].pos, q[t].dist), best)
    requires visited' == visited + {q[t].pos} && pops' == pops + [q[t]]
    requires offers' == Offers(w, board, cur, prev, c, isWarrior, pops')
    ensures ExploreInv(w, board, enemy, barr, cur, prev, c, isWarrior, q', visited', dist', pops', best', offers', okDirs, all)
  {
    var top := q[t];
    var u := top.pos;
    assert top in q;
    assert u in all by {
      assert u == Pos(u.i, u.j);
    }
    var d1 := Deterred(w, board, cur, prev, c, isWarrior, dist, top);
    ExpansionLowered(w, board, enemy, barr, cur, prev, c, isWarrior, dist, top, q1, q', dist');
    ExpandedLog(w, c, visited, pops, okDirs, all, top);
    ExpandedOffers(w, board, cur, prev, c, isWarrior, pops, top, best, offers, okDirs, best');
    ExpandedPending(q, t, visited, dist, q1, d1, q', dist');
    ExpandedSeeds(w, board, enemy, barr, c, top, visited, dist, pops, d1, dist');
    ExpandedClosure(w, board, enemy, barr, cur, prev, c, isWarrior, top, visited, dist, pops, q1, q', dist');
    ExpandedTracked(w, board, enemy, barr, cur, prev, c, isWarrior, top, dist, pops, q, t, q1, q', dist');
  }

  /** The offer o replaces the best one so far only when it is strictly
      more profitable (AIEldar.cc:509, 527, 539, 546, 561). */
  function Better(o: Option<Offer>, best: Offer): (r: Offer)
    ensures o.Some? && o.value.profit > best.profit ==> r == o.value
    ensures !(o.Some? && o.value.profit > best.profit) ==> r == best
  {
    if o.Some? && o.value.profit > best.profit then o.value else best
  }

  /** What expanding `top` does to the queue and the distances: a weapon a
      teammate will take costs DETER_PENALTY more to pass through; an enemy
      to attack is not passed through; any other cell relaxes its
      neighbours. */
  ghost predicate Expansion(w: World, board: array2<int>, enemy: array2<int>, barr: array2<int>,
                            cur: map<Pos, BonusInfo>, prev: map<Pos, BonusInfo>, c: Citizen, isWarrior: bool,
                            dist: map<Pos, int>, top: Vertex, q1: seq<Vertex>,
                            q': seq<Vertex>, dist': map<Pos, int>)
    requires Scene(w, board, enemy, barr) && InGrid(top.pos, w.rows, w.cols)
    requires top.pos in dist && top.dist == dist[top.pos]
    reads board, enemy, barr
  {
    var sc := CellScore(w, board, cur, prev, c, isWarrior, top);
    var d1 := Deterred(w, board, cur, prev, c, isWarrior, dist, top);
    && (sc.Attack? ==> q' == q1 && dist' == d1)
    && (!sc.Attack? ==> Relaxation(w, board, enemy, barr, c, top.pos, top.dir, q1, d1, q', dist'))
  }

  /** The distances once `top` is scored: a weapon a teammate will take
      costs DETER_PENALTY more to pass through. */
  function Deterred(w: World, board: array2<int>, cur: map<Pos, BonusInfo>, prev: map<Pos, BonusInfo>,
                    c: Citizen, isWarrior: bool, dist: map<Pos, int>, top: Vertex): (r: map<Pos, int>)
    requires Board(w, board) && InGrid(top.pos, w.rows, w.cols) && top.pos in dist && top.dist == dist[top.pos]
    reads board
    ensures r.Keys == dist.Keys
    ensures forall p :: p in dist && p != top.pos ==> r[p] == dist[p]
    ensures r[top.pos] == Base(w, board, cur, prev, c, isWarrior, top)
  {
    if CellScore(w, board, cur, prev, c, isWarrior, top).Deter? then dist[top.pos := top.dist + DETER_PENALTY] else dist
  }

  /** Either way distances only go down. */
  lemma ExpansionLowered(w: World, board: array2<int>, enemy: array2<int>, barr: array2<int>,
                         cur: map<Pos, BonusInfo>, prev: map<Pos, BonusInfo>, c: Citizen, isWarrior: bool,
                         dist: map<Pos, int>, top: Vertex, q1: seq<Vertex>,
                         q': seq<Vertex>, dist': map<Pos, int>)
    requires Scene(w, board, enemy, barr) && InGrid(top.pos, w.rows, w.cols)
    requires top.pos in dist && top.dist == dist[top.pos]
    requires Expansion(w, board, enemy, barr, cur, prev, c, isWarrior, dist, top, q1, q', dist')
    ensures Lowered(q1, Deterred(w, board, cur, prev, c, isWarrior, dist, top), q', dist')
  {
    var d1 := Deterred(w, board, cur, prev, c, isWarrior, dist, top);
    if q' == q1 && dist' == d1 {
      assert q1[|q1|..] == [];
    }
  }

  /** The popped vertex joins the log. */
  lemma ExpandedLog(w: World, c: Citizen, visited: set<Pos>, pops: seq<Vertex>, okDirs: set<Dir>, all: set<Pos>,
                    top: Vertex)
    requires Log(w, c, visited, pops, okDirs, all)
    requires InGrid(top.pos, w.rows, w.cols) && top.pos in all && top.pos !in visited && top.dir in okDirs
    ensures Log(w, c, visited + {top.pos}, pops + [top], okDirs, all)
  {
    var pops' := pops + [top];
    CellsAppend(pops, top);
    assert forall k :: 0 <= k < |pops| ==> pops'[k] == pops[k];
  }

  /** The offer of the popped vertex is the next of the list. */
  lemma ExpandedOffers(w: World, board: array2<int>, cur: map<Pos, BonusInfo>, prev: map<Pos, BonusInfo>,
                       c: Citizen, isWarrior: bool, pops: seq<Vertex>, top: Vertex,
                       best: Offer, offers: seq<Offer>, okDirs: set<Dir>, best': Offer)
    requires Scored(w, board, cur, prev, c, isWarrior, pops, best, offers, okDirs)
    requires InGrid(top.pos, w.rows, w.cols) && top.dir in okDirs
    requires best' == Better(OfferFor(CellScore(w, board, cur, prev, c, isWarrior, top), top.dir, top.pos, top.dist), best)
    ensures Scored(w, board, cur, prev, c, isWarrior, pops + [top], best',
                   Offers(w, board, cur, prev, c, isWarrior, pops + [top]), okDirs)
  {
    var pops' := pops + [top];
    assert pops'[..|pops|] == pops;
    var o := OfferFor(CellScore(w, board, cur, prev, c, isWarrior, top), top.dir, top.pos, top.dist);
    if o.Some? {
      assert Offers(w, board, cur, prev, c, isWarrior, pops') == offers + [o.value];
      assert ClaimOk(w, cur, o.value.claim) by {
        assert Classified(w, board, top.pos.i, top.pos.j);
      }
      OffersOkAppend(w, cur, offers, o.value, okDirs);
      BestOfAppend(offers, o.value);
    } else {
      assert Offers(w, board, cur, prev, c, isWarrior, pops') == offers + [];
      assert offers + [] == offers;
    }
  }

  lemma OffersOkAppend(w: World, cur: map<Pos, BonusInfo>, offers: seq<Offer>, o: Offer, okDirs: set<Dir>)
    requires w.WellFormed() && OffersOk(w, cur, offers, okDirs)
    requires o.dir in okDirs && ClaimOk(w, cur, o.claim)
    ensures OffersOk(w, cur, offers + [o], okDirs)
  {
  }

  /** The queue after relaxing still holds, for every unexpanded cell, its
      distance. */
  lemma ExpandedPending(q: seq<Vertex>, t: nat, visited: set<Pos>, dist: map<Pos, int>,
                        q1: seq<Vertex>, d1: map<Pos, int>, q': seq<Vertex>, dist': map<Pos, int>)
    requires Pending(q, dist, visited) && |q| > 0 && t < |q| && q[t].pos !in visited
    requires q1 == RemoveAt(q, t) && d1.Keys == dist.Keys
    requires forall p :: p in dist && p != q[t].pos ==> d1[p] == dist[p]
    requires Lowered(q1, d1, q', dist')
    ensures Pending(q', dist', visited + {q[t].pos})
  {
    var u := q[t].pos;
    forall v | v in q'
      ensures v.pos in dist'
      ensures v.pos !in visited + {u} ==> dist'[v.pos] <= v.dist
    {
      if v !in q'[|q1|..] {
        assert v in q1 by {
          var k :| 0 <= k < |q'| && q'[k] == v;
          assert k < |q1| && q1[k] == v;
        }
      }
    }
    forall p | p in dist' && p !in visited + {u}
      ensures exists v :: v in q' && v.pos == p && v.dist == dist'[p]
    {
      if p in d1 && dist'[p] == d1[p] {
        var v :| v in q && v.pos == p && v.dist == dist[p];
        assert v != q[t] && v in q1;
        var k :| 0 <= k < |q1| && q1[k] == v;
        assert q'[k] == v;
      } else {
        var v :| v in q'[|q1|..] && v.pos == p && v.dist == dist'[p];
      }
    }
  }

  /** Every allowed first step stays reached. */
  lemma ExpandedSeeds(w: World, board: array2<int>, enemy: array2<int>, barr: array2<int>, c: Citizen,
                      top: Vertex, visited: set<Pos>, dist: map<Pos, int>, pops: seq<Vertex>,
                      d1: map<Pos, int>, dist': map<Pos, int>)
    requires Grids(w, board, enemy, barr) && InGrid(c.pos, w.rows, w.cols)
    requires SeedsReached(w, board, enemy, barr, c, visited, dist, pops)
    requires top.pos !in visited && top.pos in dist && top.dist == dist[top.pos]
    requires d1.Keys == dist.Keys && forall p :: p in dist && p != top.pos ==> d1[p] == dist[p]
    requires forall p :: p in d1 ==> p in dist' && dist'[p] <= d1[p]
    ensures SeedsReached(w, board, enemy, barr, c, visited + {top.pos}, dist', pops + [top])
  {
    var pops' := pops + [top];
    forall d: Dir | SeedOk(w, board, enemy, c, d)
      ensures SeedReached(w, board, enemy, barr, c, visited + {top.pos}, dist', pops', d)
    {
      var p := Step(c.pos, d);
      var cost := StepCost(w, board, enemy, barr, c, p);
      assert SeedReached(w, board, enemy, barr, c, visited, dist, pops, d);
      if p !in visited && p in dist && dist[p] <= cost {
        if p == top.pos {
          assert pops'[|pops|] == top;
        }
      } else {
        var j :| 0 <= j < |pops| && pops[j].pos == p && pops[j].dist <= cost;
        assert pops'[j] == pops[j];
      }
    }
  }

  /** Every relaxed neighbour stays reached, and the popped vertex's
      neighbours join them. */
  lemma ExpandedClosure(w: World, board: array2<int>, enemy: array2<int>, barr: array2<int>,
                        cur: map<Pos, BonusInfo>, prev: map<Pos, BonusInfo>, c: Citizen, isWarrior: bool,
                        top: Vertex, visited: set<Pos>, dist: map<Pos, int>, pops: seq<Vertex>,
                        q1: seq<Vertex>, q': seq<Vertex>, dist': map<Pos, int>)
    requires Scene(w, board, enemy, barr) && InGrid(c.pos, w.rows, w.cols) && PopsInGrid(w, pops)
    requires visited == {c.pos} + Cells(pops)
    requires Closure(w, board, enemy, barr, cur, prev, c, isWarrior, visited, dist, pops)
    requires InGrid(top.pos, w.rows, w.cols)
    requires top.pos !in visited && top.pos in dist && top.dist == dist[top.pos]
    requires Expansion(w, board, enemy, barr, cur, prev, c, isWarrior, dist, top, q1, q', dist')
    requires Lowered(q1, Deterred(w, board, cur, prev, c, isWarrior, dist, top), q', dist')
    ensures var pops' := pops + [top];
            PopsInGrid(w, pops') &&
            Closure(w, board, enemy, barr, cur, prev, c, isWarrior, visited + {top.pos}, dist', pops')
  {
    var pops' := pops + [top];
    var visited' := visited + {top.pos};
    forall k, d: Dir | 0 <= k < |pops'|
      ensures Reached(w, board, enemy, barr, cur, prev, c, isWarrior, visited', dist', pops', k, d)
    {
      if k < |pops| {
        assert Reached(w, board, enemy, barr, cur, prev, c, isWarrior, visited, dist, pops, k, d);
        OldEdgeReached(w, board, enemy, barr, cur, prev, c, isWarrior, top, visited, dist, pops, q1, q', dist', k, d);
      } else {
        NewEdgeReached(w, board, enemy, barr, cur, prev, c, isWarrior, top, visited, dist, pops, q1, q', dist', d);
      }
    }
  }

  /** An edge out of a cell expanded earlier stays reached: its end was
      expanded already, is the cell expanded now, or is still pending at a
      distance that only went down. */
  lemma OldEdgeReached(w: World, board: array2<int>, enemy: array2<int>, barr: array2<int>,
                       cur: map<Pos, BonusInfo>, prev: map<Pos, BonusInfo>, c: Citizen, isWarrior: bool,
                       top: Vertex, visited: set<Pos>, dist: map<Pos, int>, pops: seq<Vertex>,
                       q1: seq<Vertex>, q': seq<Vertex>, dist': map<Pos, int>, k: int, d: Dir)
    requires Scene(w, board, enemy, barr) && PopsInGrid(w, pops) && 0 <= k < |pops|
    requires InGrid(top.pos, w.rows, w.cols) && top.pos in dist && top.dist == dist[top.pos]
    requires Reached(w, board, enemy, barr, cur, prev, c, isWarrior, visited, dist, pops, k, d)
    requires Lowered(q1, Deterred(w, board, cur, prev, c, isWarrior, dist, top), q', dist')
    ensures PopsInGrid(w, pops + [top])
    ensures Reached(w, board, enemy, barr, cur, prev, c, isWarrior, visited + {top.pos}, dist', pops + [top], k, d)
  {
    var pops' := pops + [top];
    assert pops'[k] == pops[k];
    var p := Step(pops[k].pos, d);
    if Edge(w, board, enemy, barr, cur, prev, c, isWarrior, pops', k, d) {
      var bound := EdgeBound(w, board, enemy, barr, cur, prev, c, isWarrior, pops[k], d);
      if p !in visited && DistOf(dist, p) <= bound {
        if p == top.pos {
          assert pops'[|pops|] == top;
        } else {
          assert p in dist;
        }
      } else {
        var j :| 0 <= j < |pops| && pops[j].pos == p && (j < k || pops[j].dist <= bound);
        assert pops'[j] == pops[j];
      }
    }
  }

  /** Every edge out of the cell expanded now is reached: its end was
      expanded already, or is pending at no more than the relaxed distance. */
  lemma NewEdgeReached(w: World, board: array2<int>, enemy: array2<int>, barr: array2<int>,
                       cur: map<Pos, BonusInfo>, prev: map<Pos, BonusInfo>, c: Citizen, isWarrior: bool,
                       top: Vertex, visited: set<Pos>, dist: map<Pos, int>, pops: seq<Vertex>,
                       q1: seq<Vertex>, q': seq<Vertex>, dist': map<Pos, int>, d: Dir)
    requires Scene(w, board, enemy, barr) && InGrid(c.pos, w.rows, w.cols) && PopsInGrid(w, pops)
    requires visited == {c.pos} + Cells(pops)
    requires InGrid(top.pos, w.rows, w.cols)
    requires top.pos !in visited && top.pos in dist && top.dist == dist[top.pos]
    requires Expansion(w, board, enemy, barr, cur, prev, c, isWarrior, dist, top, q1, q', dist')
    ensures PopsInGrid(w, pops + [top])
    ensures Reached(w, board, enemy, barr, cur, prev, c, isWarrior, visited + {top.pos}, dist', pops + [top], |pops|, d)
  {
    var u := top.pos;
    var d1 := Deterred(w, board, cur, prev, c, isWarrior, dist, top);
    var pops' := pops + [top];
    var p := Step(u, d);
    assert pops'[|pops|] == top;
    if Edge(w, board, enemy, barr, cur, prev, c, isWarrior, pops', |pops|, d) {
      assert p != u;
      assert DistOf(d1, u) == Base(w, board, cur, prev, c, isWarrior, top);
      assert NeighbourRelaxed(w, board, enemy, barr, c, u, d, d1, dist');
      if p in visited + {u} {
        assert p in Cells(pops);
        var j :| 0 <= j < |pops| && pops[j].pos == p;
        assert pops'[j] == pops[j];
      }
    }
  }

  /** No step costs less than nothing when every enemy shows its life
      (AIEldar.cc:400-408). */
  lemma StepCostNonNegative(w: World, board: array2<int>, enemy: array2<int>, barr: array2<int>, c: Citizen, p: Pos)
    requires Grids(w, board, enemy, barr) && LiveEnemies(w, board, enemy) && InGrid(p, w.rows, w.cols)
    ensures StepCost(w, board, enemy, barr, c, p) >= 0
  {
  }

  /** The vertices that expanding `top` queues are no nearer than it, as
      no step costs less than nothing and DETER_PENALTY only adds. */
  lemma ExpansionAbove(w: World, board: array2<int>, enemy: array2<int>, barr: array2<int>,
                       cur: map<Pos, BonusInfo>, prev: map<Pos, BonusInfo>, c: Citizen, isWarrior: bool,
                       top: Vertex, dist: map<Pos, int>, q1: seq<Vertex>, q': seq<Vertex>, dist': map<Pos, int>)
    requires Scene(w, board, enemy, barr) && LiveEnemies(w, board, enemy)
    requires InGrid(top.pos, w.rows, w.cols) && top.pos in dist && top.dist == dist[top.pos]
    requires Expansion(w, board, enemy, barr, cur, prev, c, isWarrior, dist, top, q1, q', dist')
    ensures forall v :: v in q' ==> v in q1 || top.dist <= v.dist
  {
    var d1 := Deterred(w, board, cur, prev, c, isWarrior, dist, top);
    ExpansionLowered(w, board, enemy, barr, cur, prev, c, isWarrior, dist, top, q1, q', dist');
    assert q' == q1 + q'[|q1|..];
    forall v | v in q' && v !in q1
      ensures top.dist <= v.dist
    {
      assert v in q'[|q1|..];
      assert RelaxedVertex(w, board, enemy, barr, c, top.pos, top.dir, d1, v);
      StepCostNonNegative(w, board, enemy, barr, c, v.pos);
    }
  }

  /** A turn that pops a nearest vertex and queues nothing nearer than it
      keeps the search nearest first. */
  lemma PoppedOrdered(q: seq<Vertex>, t: nat, pops: seq<Vertex>, q': seq<Vertex>)
    requires Ordered(q, pops) && t < |q| && Nearest(q, q[t])
    requires forall v :: v in q' ==> v in RemoveAt(q, t) || q[t].dist <= v.dist
    ensures Ordered(q', pops + [q[t]])
  {
    var r := pops + [q[t]];
    assert forall k :: 0 <= k < |pops| ==> r[k] == pops[k];
  }

  /** The first steps queued are tracked: each is an allowed first step at
      its seed cost. */
  lemma StartTracked(w: World, board: array2<int>, enemy: array2<int>, barr: array2<int>,
                     cur: map<Pos, BonusInfo>, prev: map<Pos, BonusInfo>, c: Citizen, isWarrior: bool,
                     q: seq<Vertex>, dist: map<Pos, int>)
    requires Board(w, board) && SeedQueue(w, board, enemy, barr, c, q, dist)
    ensures Scene(w, board, enemy, barr) && PopsInGrid(w, [])
    ensures Tracked(w, board, enemy, barr, cur, prev, c, isWarrior, q, dist, [])
  {
  }

  /** A tracked vertex stays tracked as one more vertex is expanded. */
  lemma OriginGrow(w: World, board: array2<int>, enemy: array2<int>, barr: array2<int>,
                   cur: map<Pos, BonusInfo>, prev: map<Pos, BonusInfo>, c: Citizen, isWarrior: bool,
                   pops: seq<Vertex>, n: int, v: Vertex, x: Vertex, n': int)
    requires Scene(w, board, enemy, barr) && InGrid(c.pos, w.rows, w.cols)
    requires PopsInGrid(w, pops) && InGrid(x.pos, w.rows, w.cols)
    requires n <= |pops| && n <= n' <= |pops| + 1 && Origin(w, board, enemy, barr, cur, prev, c, isWarrior, pops, n, v)
    ensures PopsInGrid(w, pops + [x]) && Origin(w, board, enemy, barr, cur, prev, c, isWarrior, pops + [x], n', v)
  {
    var r := pops + [x];
    assert forall k :: 0 <= k < |pops| ==> r[k] == pops[k];
    assert r[|pops|] == x;
    if !(SeedOk(w, board, enemy, c, v.dir) && v == SeedVertex(w, board, enemy, barr, c, v.dir)) {
      var j, d: Dir :| && 0 <= j < n && Feeds(w, board, cur, prev, c, isWarrior, pops[j], d, v.pos)
                       && v.dir == pops[j].dir
                       && v.dist == EdgeBound(w, board, enemy, barr, cur, prev, c, isWarrior, pops[j], d);
      assert r[j] == pops[j];
    }
  }

  /** Expanding `top` keeps every vertex tracked and every expanded cell's
      distance settled. */
  lemma ExpandedTracked(w: World, board: array2<int>, enemy: array2<int>, barr: array2<int>,
                        cur: map<Pos, BonusInfo>, prev: map<Pos, BonusInfo>, c: Citizen, isWarrior: bool,
                        top: Vertex, dist: map<Pos, int>, pops: seq<Vertex>, q: seq<Vertex>, t: nat,
                        q1: seq<Vertex>, q': seq<Vertex>, dist': map<Pos, int>)
    requires Scene(w, board, enemy, barr) && InGrid(c.pos, w.rows, w.cols) && PopsInGrid(w, pops)
    requires Tracked(w, board, enemy, barr, cur, prev, c, isWarrior, q, dist, pops)
    requires t < |q| && top == q[t] && q1 == RemoveAt(q, t) && top.pos !in Cells(pops)
    requires InGrid(top.pos, w.rows, w.cols) && top.pos in dist && top.dist == dist[top.pos]
    requires Expansion(w, board, enemy, barr, cur, prev, c, isWarrior, dist, top, q1, q', dist')
    requires Lowered(q1, Deterred(w, board, cur, prev, c, isWarrior, dist, top), q', dist')
    ensures PopsInGrid(w, pops + [top])
    ensures Tracked(w, board, enemy, barr, cur, prev, c, isWarrior, q', dist', pops + [top])
  {
    assert top in q;
    ExpandedLineage(w, board, enemy, barr, cur, prev, c, isWarrior, top, pops);
    ExpandedQueue(w, board, enemy, barr, cur, prev, c, isWarrior, top, dist, pops, q, t, q1, q', dist');
    ExpandedPinned(w, board, enemy, barr, cur, prev, c, isWarrior, top, dist, pops, q1, q', dist');
  }

  /** The expanded vertex, taken from the queue, joins the lineage. */
  lemma ExpandedLineage(w: World, board: array2<int>, enemy: array2<int>, barr: array2<int>,
                        cur: map<Pos, BonusInfo>, prev: map<Pos, BonusInfo>, c: Citizen, isWarrior: bool,
                        top: Vertex, pops: seq<Vertex>)
    requires Scene(w, board, enemy, barr) && InGrid(c.pos, w.rows, w.cols)
    requires PopsInGrid(w, pops) && InGrid(top.pos, w.rows, w.cols)
    requires Lineage(w, board, enemy, barr, cur, prev, c, isWarrior, pops)
    requires Origin(w, board, enemy, barr, cur, prev, c, isWarrior, pops, |pops|, top)
    ensures PopsInGrid(w, pops + [top]) && Lineage(w, board, enemy, barr, cur, prev, c, isWarrior, pops + [top])
  {
    var pops' := pops + [top];
    forall k | 0 <= k < |pops'|
      ensures Origin(w, board, enemy, barr, cur, prev, c, isWarrior, pops', k, pops'[k])
    {
      if k < |pops| {
        assert pops'[k] == pops[k];
        OriginGrow(w, board, enemy, barr, cur, prev, c, isWarrior, pops, k, pops[k], top, k);
      } else {
        OriginGrow(w, board, enemy, barr, cur, prev, c, isWarrior, pops, k, top, top, k);
      }
    }
  }

  /** The vertices still queued stay tracked, and those queued by the
      expansion were relaxed out of `top`. */
  lemma ExpandedQueue(w: World, board: array2<int>, enemy: array2<int>, barr: array2<int>,
                      cur: map<Pos, BonusInfo>, prev: map<Pos, BonusInfo>, c: Citizen, isWarrior: bool,
                      top: Vertex, dist: map<Pos, int>, pops: seq<Vertex>, q: seq<Vertex>, t: nat,
                      q1: seq<Vertex>, q': seq<Vertex>, dist': map<Pos, int>)
    requires Scene(w, board, enemy, barr) && InGrid(c.pos, w.rows, w.cols) && PopsInGrid(w, pops)
    requires forall v :: v in q ==> Origin(w, board, enemy, barr, cur, prev, c, isWarrior, pops, |pops|, v)
    requires t < |q| && top == q[t] && q1 == RemoveAt(q, t)
    requires InGrid(top.pos, w.rows, w.cols) && top.pos in dist && top.dist == dist[top.pos]
    requires Expansion(w, board, enemy, barr, cur, prev, c, isWarrior, dist, top, q1, q', dist')
    requires Lowered(q1, Deterred(w, board, cur, prev, c, isWarrior, dist, top), q', dist')
    ensures PopsInGrid(w, pops + [top])
    ensures forall v :: v in q' ==> Origin(w, board, enemy, barr, cur, prev, c, isWarrior, pops + [top], |pops| + 1, v)
  {
    var pops' := pops + [top];
    var d1 := Deterred(w, board, cur, prev, c, isWarrior, dist, top);
    assert q' == q1 + q'[|q1|..];
    assert pops'[|pops|] == top;
    forall v | v in q'
      ensures Origin(w, board, enemy, barr, cur, prev, c, isWarrior, pops', |pops| + 1, v)
    {
      if v in q1 {
        OriginGrow(w, board, enemy, barr, cur, prev, c, isWarrior, pops, |pops|, v, top, |pops| + 1);
      } else {
        assert v in q'[|q1|..];
        assert RelaxedVertex(w, board, enemy, barr, c, top.pos, top.dir, d1, v);
        AdjacentIsStep(top.pos, v.pos);
        var d: Dir :| Step(top.pos, d) == v.pos;
        assert Feeds(w, board, cur, prev, c, isWarrior, pops'[|pops|], d, v.pos);
      }
    }
  }

  /** The distances of the cells expanded before stay settled, and the cell
      expanded now is settled at the distance it relaxes from. */
  lemma ExpandedPinned(w: World, board: array2<int>, enemy: array2<int>, barr: array2<int>,
                       cur: map<Pos, BonusInfo>, prev: map<Pos, BonusInfo>, c: Citizen, isWarrior: bool,
                       top: Vertex, dist: map<Pos, int>, pops: seq<Vertex>,
                       q1: seq<Vertex>, q': seq<Vertex>, dist': map<Pos, int>)
    requires Scene(w, board, enemy, barr) && PopsInGrid(w, pops)
    requires Pinned(w, board, enemy, barr, cur, prev, c, isWarrior, dist, pops) && top.pos !in Cells(pops)
    requires InGrid(top.pos, w.rows, w.cols) && top.pos in dist && top.dist == dist[top.pos]
    requires Expansion(w, board, enemy, barr, cur, prev, c, isWarrior, dist, top, q1, q', dist')
    requires Lowered(q1, Deterred(w, board, cur, prev, c, isWarrior, dist, top), q', dist')
    ensures PopsInGrid(w, pops + [top]) && Pinned(w, board, enemy, barr, cur, prev, c, isWarrior, dist', pops + [top])
  {
    var pops' := pops + [top];
    forall k | 0 <= k < |pops'|
      ensures Settled(w, board, enemy, barr, cur, prev, c, isWarrior, dist', pops', k)
    {
      if k < |pops| {
        assert pops[k].pos in Cells(pops);
        assert Settled(w, board, enemy, barr, cur, prev, c, isWarrior, dist, pops, k);
        SettledKept(w, board, enemy, barr, cur, prev, c, isWarrior, top, dist, pops, q1, q', dist', k);
      } else {
        SettledTop(w, board, enemy, barr, cur, prev, c, isWarrior, top, dist, pops, q1, q', dist');
      }
    }
  }

  /** The cell expanded now keeps the distance it relaxes from: the
      expansion relaxes only its neighbours. */
  lemma SettledTop(w: World, board: array2<int>, enemy: array2<int>, barr: array2<int>,
                   cur: map<Pos, BonusInfo>, prev: map<Pos, BonusInfo>, c: Citizen, isWarrior: bool,
                   top: Vertex, dist: map<Pos, int>, pops: seq<Vertex>,
                   q1: seq<Vertex>, q': seq<Vertex>, dist': map<Pos, int>)
    requires Scene(w, board, enemy, barr) && PopsInGrid(w, pops)
    requires InGrid(top.pos, w.rows, w.cols) && top.pos in dist && top.dist == dist[top.pos]
    requires Expansion(w, board, enemy, barr, cur, prev, c, isWarrior, dist, top, q1, q', dist')
    requires Lowered(q1, Deterred(w, board, cur, prev, c, isWarrior, dist, top), q', dist')
    ensures PopsInGrid(w, pops + [top])
    ensures Settled(w, board, enemy, barr, cur, prev, c, isWarrior, dist', pops + [top], |pops|)
  {
    var pops' := pops + [top];
    var u := top.pos;
    var d1 := Deterred(w, board, cur, prev, c, isWarrior, dist, top);
    assert forall k :: 0 <= k < |pops| ==> pops'[k] == pops[k];
    assert pops'[|pops|] == top;
    if !CellScore(w, board, cur, prev, c, isWarrior, top).Attack? {
      forall v | v in q'[|q1|..]
        ensures v.pos != u
      {
        assert RelaxedVertex(w, board, enemy, barr, c, u, top.dir, d1, v);
      }
    }
    assert dist'[u] == d1[u];
  }

  /** A cell expanded before keeps a settled distance: the expansion of
      `top` lowers it at most to a relaxation out of `top`. */
  lemma SettledKept(w: World, board: array2<int>, enemy: array2<int>, barr: array2<int>,
                    cur: map<Pos, BonusInfo>, prev: map<Pos, BonusInfo>, c: Citizen, isWarrior: bool,
                    top: Vertex, dist: map<Pos, int>, pops: seq<Vertex>,
                    q1: seq<Vertex>, q': seq<Vertex>, dist': map<Pos, int>, k: int)
    requires Scene(w, board, enemy, barr) && PopsInGrid(w, pops) && 0 <= k < |pops|
    requires InGrid(top.pos, w.rows, w.cols) && top.pos in dist && top.dist == dist[top.pos]
    requires pops[k].pos != top.pos
    requires Settled(w, board, enemy, barr, cur, prev, c, isWarrior, dist, pops, k)
    requires Expansion(w, board, enemy, barr, cur, prev, c, isWarrior, dist, top, q1, q', dist')
    requires Lowered(q1, Deterred(w, board, cur, prev, c, isWarrior, dist, top), q', dist')
    ensures PopsInGrid(w, pops + [top])
    ensures Settled(w, board, enemy, barr, cur, prev, c, isWarrior, dist', pops + [top], k)
  {
    var pops' := pops + [top];
    assert forall i :: 0 <= i < |pops| ==> pops'[i] == pops[i];
    assert pops'[|pops|] == top;
    KeptBound(w, board, enemy, barr, cur, prev, c, isWarrior, top, dist, pops, q1, q', dist', k);
    KeptWitness(w, board, enemy, barr, cur, prev, c, isWarrior, top, dist, pops, q1, q', dist', k);
  }

  /** The distance of a cell expanded before is bounded by every relaxation
      into it out of a later vertex, `top` included. */
  lemma KeptBound(w: World, board: array2<int>, enemy: array2<int>, barr: array2<int>,
                  cur: map<Pos, BonusInfo>, prev: map<Pos, BonusInfo>, c: Citizen, isWarrior: bool,
                  top: Vertex, dist: map<Pos, int>, pops: seq<Vertex>,
                  q1: seq<Vertex>, q': seq<Vertex>, dist': map<Pos, int>, k: int)
    requires Scene(w, board, enemy, barr) && PopsInGrid(w, pops) && 0 <= k < |pops|
    requires InGrid(top.pos, w.rows, w.cols) && top.pos in dist && top.dist == dist[top.pos]
    requires pops[k].pos != top.pos
    requires Settled(w, board, enemy, barr, cur, prev, c, isWarrior, dist, pops, k)
    requires Expansion(w, board, enemy, barr, cur, prev, c, isWarrior, dist, top, q1, q', dist')
    requires Lowered(q1, Deterred(w, board, cur, prev, c, isWarrior, dist, top), q', dist')
    ensures PopsInGrid(w, pops + [top])
    ensures var p := pops[k].pos;
            && p in dist' && dist'[p] <= dist[p]
            && forall j, d: Dir :: k < j <= |pops| && Feeds(w, board, cur, prev, c, isWarrior, (pops + [top])[j], d, p) ==>
                 dist'[p] <= EdgeBound(w, board, enemy, barr, cur, prev, c, isWarrior, (pops + [top])[j], d)
  {
    var pops' := pops + [top];
    var n := |pops|;
    var u, p := top.pos, pops[k].pos;
    var d1 := Deterred(w, board, cur, prev, c, isWarrior, dist, top);
    assert forall i :: 0 <= i < n ==> pops'[i] == pops[i];
    assert pops'[n] == top;
    assert d1[p] == dist[p] && p in dist';
    forall j, d: Dir | k < j <= n && Feeds(w, board, cur, prev, c, isWarrior, pops'[j], d, p)
      ensures dist'[p] <= EdgeBound(w, board, enemy, barr, cur, prev, c, isWarrior, pops'[j], d)
    {
      if j == n {
        assert NeighbourRelaxed(w, board, enemy, barr, c, u, d, d1, dist');
      }
    }
  }

  /** The distance of a cell expanded before is still its own relaxed-from
      distance or one relaxed into it, now possibly out of `top`. */
  lemma KeptWitness(w: World, board: array2<int>, enemy: array2<int>, barr: array2<int>,
                    cur: map<Pos, BonusInfo>, prev: map<Pos, BonusInfo>, c: Citizen, isWarrior: bool,
                    top: Vertex, dist: map<Pos, int>, pops: seq<Vertex>,
                    q1: seq<Vertex>, q': seq<Vertex>, dist': map<Pos, int>, k: int)
    requires Scene(w, board, enemy, barr) && PopsInGrid(w, pops) && 0 <= k < |pops|
    requires InGrid(top.pos, w.rows, w.cols) && top.pos in dist && top.dist == dist[top.pos]
    requires pops[k].pos != top.pos
    requires Settled(w, board, enemy, barr, cur, prev, c, isWarrior, dist, pops, k)
    requires Expansion(w, board, enemy, barr, cur, prev, c, isWarrior, dist, top, q1, q', dist')
    requires Lowered(q1, Deterred(w, board, cur, prev, c, isWarrior, dist, top), q', dist')
    ensures PopsInGrid(w, pops + [top])
    ensures var p, pops' := pops[k].pos, pops + [top];
            && p in dist'
            && (|| dist'[p] == Base(w, board, cur, prev, c, isWarrior, pops[k])
                || exists j, d: Dir :: k < j < |pops'| && Feeds(w, board, cur, prev, c, isWarrior, pops'[j], d, p)
                                       && dist'[p] == EdgeBound(w, board, enemy, barr, cur, prev, c, isWarrior, pops'[j], d))
  {
    var pops' := pops + [top];
    var n := |pops|;
    var u, p := top.pos, pops[k].pos;
    var d1 := Deterred(w, board, cur, prev, c, isWarrior, dist, top);
    assert pops'[n] == top;
    assert d1[p] == dist[p] && p in dist';
    if dist'[p] != dist[p] {
      var d := RelaxedFrom(w, board, enemy, barr, cur, prev, c, isWarrior, top, dist, q1, q', dist', p);
    } else if dist[p] != Base(w, board, cur, prev, c, isWarrior, pops[k]) {
      var j, d: Dir :| && k < j < n && Feeds(w, board, cur, prev, c, isWarrior, pops[j], d, p)
                       && dist[p] == EdgeBound(w, board, enemy, barr, cur, prev, c, isWarrior, pops[j], d);
      assert pops'[j] == pops[j];
    }
  }

  /** A cell whose distance the expansion of `top` changed was relaxed out
      of `top`, to the distance it now has. */
  lemma RelaxedFrom(w: World, board: array2<int>, enemy: array2<int>, barr: array2<int>,
                    cur: map<Pos, BonusInfo>, prev: map<Pos, BonusInfo>, c: Citizen, isWarrior: bool,
                    top: Vertex, dist: map<Pos, int>, q1: seq<Vertex>, q': seq<Vertex>, dist': map<Pos, int>, p: Pos)
    returns (d: Dir)
    requires Scene(w, board, enemy, barr) && InGrid(top.pos, w.rows, w.cols)
    requires top.pos in dist && top.dist == dist[top.pos]
    requires Expansion(w, board, enemy, barr, cur, prev, c, isWarrior, dist, top, q1, q', dist')
    requires Lowered(q1, Deterred(w, board, cur, prev, c, isWarrior, dist, top), q', dist')
    requires p in dist && p != top.pos && p in dist' && dist'[p] != dist[p]
    ensures Feeds(w, board, cur, prev, c, isWarrior, top, d, p)
    ensures dist'[p] == EdgeBound(w, board, enemy, barr, cur, prev, c, isWarrior, top, d)
  {
    var u := top.pos;
    var d1 := Deterred(w, board, cur, prev, c, isWarrior, dist, top);
    assert d1[p] == dist[p];
    assert !CellScore(w, board, cur, prev, c, isWarrior, top).Attack?;
    var v :| v in q'[|q1|..] && v.pos == p && v.dist == dist'[p];
    assert RelaxedVertex(w, board, enemy, barr, c, u, top.dir, d1, v);
    AdjacentIsStep(u, p);
    d :| Step(u, d) == p;
  }

  /** The offer a scored cell makes, if it is a target. */
  function OfferFor(sc: Scored, dir: Dir, u: Pos, distance: int): (r: Option<Offer>)
    ensures r.Some? <==> sc.Attack? || sc.Candidate?
    ensures r.Some? ==> r.value.profit == sc.profit && r.value.dir == dir
    ensures r.Some? && r.value.claim.Some? ==> sc.Candidate? && sc.claim && r.value.claim.value == Claim(u, distance)
  {
    match sc
    case Attack(profit) => Some(Offer(profit, dir, None))
    case Candidate(profit, claim) => Some(Offer(profit, dir, if claim then Some(Claim(u, distance)) else None))
    case _ => None
  }

  /** Scoring one more offer replaces the best one exactly when it is more
      profitable. */
  lemma BestOfAppend(s: seq<Offer>, o: Offer)
    ensures BestOf(s + [o]) == if o.profit > BestOf(s).profit then o else BestOf(s)
  {
    assert (s + [o])[..|s + [o]| - 1] == s;
  }

  /** Food is worth taking below the initial life of the citizen's type. */
  function NeedHeal(w: World, c: Citizen, isWarrior: bool): (r: bool)
    ensures r <==> c.life < (if isWarrior then w.params.warriorIniLife else w.params.builderIniLife)
  {
    if isWarrior then c.life < w.params.warriorIniLife else c.life < w.params.builderIniLife
  }

  /** Distances only go down, the queue only grows, and every cell whose
      distance changed has its new distance queued. */
  ghost predicate Lowered(q: seq<Vertex>, dist: map<Pos, int>, q': seq<Vertex>, dist': map<Pos, int>)
  {
    && |q| <= |q'| && q'[..|q|] == q
    && (forall v :: v in q'[|q|..] ==> v.pos in dist' && dist'[v.pos] == v.dist)
    && (forall p :: p in dist ==> p in dist' && dist'[p] <= dist[p])
    && (forall p :: p in dist' && (p !in dist || dist'[p] != dist[p]) ==>
          exists v :: v in q'[|q|..] && v.pos == p && v.dist == dist'[p])
  }

  /** After relaxing through u, the non-wall cell one step from u in
      direction d is at the nearer of its old distance and u's distance
      plus the cost of the step. */
  ghost predicate NeighbourRelaxed(w: World, board: array2<int>, enemy: array2<int>, barr: array2<int>,
                                   c: Citizen, u: Pos, d: Dir, dist: map<Pos, int>, dist': map<Pos, int>)
    requires Grids(w, board, enemy, barr)
    reads board, enemy, barr
  {
    var p := Step(u, d);
    InGrid(p, w.rows, w.cols) && board[p.i, p.j] != WALL ==>
      DistOf(dist', p) == Min(DistOf(dist, p), DistOf(dist, u) + StepCost(w, board, enemy, barr, c, p))
  }

  /** The same, as a bound only. */
  ghost predicate NeighbourBound(w: World, board: array2<int>, enemy: array2<int>, barr: array2<int>,
                                 c: Citizen, u: Pos, d: Dir, du: int, dist': map<Pos, int>)
    requires Grids(w, board, enemy, barr)
    reads board, enemy, barr
  {
    var p := Step(u, d);
    InGrid(p, w.rows, w.cols) && board[p.i, p.j] != WALL ==>
      DistOf(dist', p) <= du + StepCost(w, board, enemy, barr, c, p)
  }

  /** A vertex the neighbour loop at u queues: a non-wall neighbour of u,
      with u's first step, at u's distance plus the cost of the step, which
      is nearer than the neighbour's distance before. */
  ghost predicate RelaxedVertex(w: World, board: array2<int>, enemy: array2<int>, barr: array2<int>,
                                c: Citizen, u: Pos, dir: Dir, dist: map<Pos, int>, v: Vertex)
    requires Grids(w, board, enemy, barr)
    reads board, enemy, barr
  {
    && InGrid(v.pos, w.rows, w.cols) && Adjacent(u, v.pos) && board[v.pos.i, v.pos.j] != WALL
    && v.dir == dir && v.dist == DistOf(dist, u) + StepCost(w, board, enemy, barr, c, v.pos)
    && v.dist < DistOf(dist, v.pos)
  }

  /** The effect of the neighbour loop at u: every non-wall neighbour is
      relaxed; each one improved is queued, with u's first step, at its new
      distance; no other cell changes. */
  ghost predicate Relaxation(w: World, board: array2<int>, enemy: array2<int>, barr: array2<int>,
                             c: Citizen, u: Pos, dir: Dir, q: seq<Vertex>, dist: map<Pos, int>,
                             q': seq<Vertex>, dist': map<Pos, int>)
    requires Grids(w, board, enemy, barr)
    reads board, enemy, barr
  {
    && Lowered(q, dist, q', dist')
    && (forall d: Dir :: NeighbourRelaxed(w, board, enemy, barr, c, u, d, dist, dist'))
    && (forall v :: v in q'[|q|..] ==> RelaxedVertex(w, board, enemy, barr, c, u, dir, dist, v))
    && (forall p :: !Adjacent(u, p) ==> DistOf(dist', p) == DistOf(dist, p))
  }

  /** What the neighbour loop at u has done after the first s directions:
      u keeps its distance, distances only went down, every new vertex is a
      relaxed neighbour, every cell is at its old distance or at du plus
      the cost of entering it, and each of the first s neighbours is bounded. */
  ghost predicate Partial(w: World, board: array2<int>, enemy: array2<int>, barr: array2<int>,
                          c: Citizen, u: Pos, dir: Dir, q: seq<Vertex>, dist: map<Pos, int>, du: int,
                          s: nat, q': seq<Vertex>, dist': map<Pos, int>)
    requires Grids(w, board, enemy, barr)
    reads board, enemy, barr
  {
    && DistOf(dist, u) == du && DistOf(dist', u) == du
    && Lowered(q, dist, q', dist')
    && NewRelaxed(w, board, enemy, barr, c, u, dir, q, dist, q')
    && Nearer(w, board, enemy, barr, c, u, dist, du, dist')
    && Bounded(w, board, enemy, barr, c, u, du, s, dist')
  }

  /** Every vertex queued since q is a relaxed neighbour of u. */
  ghost predicate NewRelaxed(w: World, board: array2<int>, enemy: array2<int>, barr: array2<int>,
                             c: Citizen, u: Pos, dir: Dir, q: seq<Vertex>, dist: map<Pos, int>, q': seq<Vertex>)
    requires Grids(w, board, enemy, barr) && |q| <= |q'|
    reads board, enemy, barr
  {
    forall v :: v in q'[|q|..] ==> RelaxedVertex(w, board, enemy, barr, c, u, dir, dist, v)
  }

  /** Every cell is at its old distance, or is a neighbour of u at du plus
      the cost of entering it. */
  ghost predicate Nearer(w: World, board: array2<int>, enemy: array2<int>, barr: array2<int>,
                         c: Citizen, u: Pos, dist: map<Pos, int>, du: int, dist': map<Pos, int>)
    requires Grids(w, board, enemy, barr)
    reads board, enemy, barr
  {
    forall p :: DistOf(dist', p) == DistOf(dist, p) ||
      (InGrid(p, w.rows, w.cols) && Adjacent(u, p) && DistOf(dist', p) == du + StepCost(w, board, enemy, barr, c, p))
  }

  /** The neighbours of u in the first s directions are bounded by du plus
      the cost of entering them. */
  ghost predicate Bounded(w: World, board: array2<int>, enemy: array2<int>, barr: array2<int>,
                          c: Citizen, u: Pos, du: int, s: nat, dist': map<Pos, int>)
    requires Grids(w, board, enemy, barr)
    reads board, enemy, barr
  {
    forall k :: 0 <= k < s <= |Directions| ==> NeighbourBound(w, board, enemy, barr, c, u, Directions[k], du, dist')
  }

  /** The neighbour loop of AIEldar.cc:568-582: every non-wall neighbour
      whose distance improves through u, movement penalties included, gets
      that distance and is queued with u's first step; nothing else changes. */
  method Expand(w: World, board: array2<int>, enemy: array2<int>, barr: array2<int>,
                c: Citizen, u: Pos, dir: Dir, q: seq<Vertex>, dist: map<Pos, int>, ghost okDirs: set<Dir>)
    returns (q': seq<Vertex>, dist': map<Pos, int>)
    requires Grids(w, board, enemy, barr) && InGrid(u, w.rows, w.cols)
    requires dir in okDirs && QueueOk(w, q, okDirs)
    ensures QueueOk(w, q', okDirs)
    ensures Relaxation(w, board, enemy, barr, c, u, dir, q, dist, q', dist')
  {
    var weapon := MyWeapon(c.weapon);
    ghost var du := DistOf(dist, u);
    q', dist' := q, dist;
    for s := 0 to |Directions|
      invariant QueueOk(w, q', okDirs)
      invariant Partial(w, board, enemy, barr, c, u, dir, q, dist, du, s, q', dist')
    {
      var p := Step(u, Directions[s]);
      if InGrid(p, w.rows, w.cols) && board[p.i, p.j] != WALL {
        var newDistance := DistOf(dist', u) + 1 +
                           MovementPenalty(board[p.i, p.j], enemy[p.i, p.j], barr[p.i, p.j], weapon, w.params);
        assert newDistance == du + StepCost(w, board, enemy, barr, c, p);
        if newDistance < DistOf(dist', p) {
          PartialPush(w, board, enemy, barr, c, u, dir, q, dist, du, s, q', dist', p, newDistance);
          dist' := dist'[p := newDistance];
          q' := q' + [Vertex(newDistance, p, dir)];
        } else {
          PartialSkip(w, board, enemy, barr, c, u, dir, q, dist, du, s, q', dist', p);
        }
      } else {
        PartialSkip(w, board, enemy, barr, c, u, dir, q, dist, du, s, q', dist', p);
      }
    }
    PartialDone(w, board, enemy, barr, c, u, dir, q, dist, du, q', dist');
  }

  /** Queueing the s-th neighbour at its improved distance extends the loop's
      invariant by one direction. */
  lemma PartialPush(w: World, board: array2<int>, enemy: array2<int>, barr: array2<int>,
                    c: Citizen, u: Pos, dir: Dir, q: seq<Vertex>, dist: map<Pos, int>, du: int,
                    s: nat, q': seq<Vertex>, dist': map<Pos, int>, p: Pos, x: int)
    requires Grids(w, board, enemy, barr) && InGrid(u, w.rows, w.cols) && s < |Directions|
    requires Partial(w, board, enemy, barr, c, u, dir, q, dist, du, s, q', dist')
    requires p == Step(u, Directions[s]) && InGrid(p, w.rows, w.cols) && board[p.i, p.j] != WALL
    requires x == du + StepCost(w, board, enemy, barr, c, p) && x < DistOf(dist', p)
    ensures Partial(w, board, enemy, barr, c, u, dir, q, dist, du, s + 1, q' + [Vertex(x, p, dir)], dist'[p := x])
  {
    AdjacentIsStep(u, p);
    forall v | v in q'[|q|..]
      ensures v.pos != p
    {
      assert dist'[v.pos] == v.dist;
    }
    LoweredPush(q, dist, q', dist', p, x, dir);
    PushRelaxed(w, board, enemy, barr, c, u, dir, q, dist, du, q', dist', p, x);
    PushNearer(w, board, enemy, barr, c, u, dist, du, dist', p, x);
    PushBounded(w, board, enemy, barr, c, u, du, s, dist', p, x);
  }

  /** The vertex queued for the s-th neighbour is a relaxed one. */
  lemma PushRelaxed(w: World, board: array2<int>, enemy: array2<int>, barr: array2<int>,
                    c: Citizen, u: Pos, dir: Dir, q: seq<Vertex>, dist: map<Pos, int>, du: int,
                    q': seq<Vertex>, dist': map<Pos, int>, p: Pos, x: int)
    requires Grids(w, board, enemy, barr) && |q| <= |q'| && DistOf(dist, u) == du
    requires NewRelaxed(w, board, enemy, barr, c, u, dir, q, dist, q')
    requires InGrid(p, w.rows, w.cols) && Adjacent(u, p) && board[p.i, p.j] != WALL
    requires x == du + StepCost(w, board, enemy, barr, c, p) && x < DistOf(dist', p) <= DistOf(dist, p)
    ensures NewRelaxed(w, board, enemy, barr, c, u, dir, q, dist, q' + [Vertex(x, p, dir)])
  {
    assert (q' + [Vertex(x, p, dir)])[|q|..] == q'[|q|..] + [Vertex(x, p, dir)];
  }

  /** Lowering the s-th neighbour to du plus its cost keeps every cell at
      its old distance or at a relaxed one. */
  lemma PushNearer(w: World, board: array2<int>, enemy: array2<int>, barr: array2<int>,
                   c: Citizen, u: Pos, dist: map<Pos, int>, du: int, dist': map<Pos, int>, p: Pos, x: int)
    requires Grids(w, board, enemy, barr)
    requires Nearer(w, board, enemy, barr, c, u, dist, du, dist')
    requires InGrid(p, w.rows, w.cols) && Adjacent(u, p) && x == du + StepCost(w, board, enemy, barr, c, p)
    ensures Nearer(w, board, enemy, barr, c, u, dist, du, dist'[p := x])
  {
  }

  /** Lowering the s-th neighbour to du plus its cost bounds it, and keeps
      the bounds of the earlier ones. */
  lemma PushBounded(w: World, board: array2<int>, enemy: array2<int>, barr: array2<int>,
                    c: Citizen, u: Pos, du: int, s: nat, dist': map<Pos, int>, p: Pos, x: int)
    requires Grids(w, board, enemy, barr) && s < |Directions|
    requires Bounded(w, board, enemy, barr, c, u, du, s, dist')
    requires p == Step(u, Directions[s]) && InGrid(p, w.rows, w.cols)
    requires x == du + StepCost(w, board, enemy, barr, c, p) && x < DistOf(dist', p)
    ensures Bounded(w, board, enemy, barr, c, u, du, s + 1, dist'[p := x])
  {
    forall k | 0 <= k < s + 1
      ensures NeighbourBound(w, board, enemy, barr, c, u, Directions[k], du, dist'[p := x])
    {
      if k < s {
        assert NeighbourBound(w, board, enemy, barr, c, u, Directions[k], du, dist');
      }
    }
  }

  /** Passing over the s-th neighbour, a wall, off the board or not improved,
      extends the loop's invariant by one direction. */
  lemma PartialSkip(w: World, board: array2<int>, enemy: array2<int>, barr: array2<int>,
                    c: Citizen, u: Pos, dir: Dir, q: seq<Vertex>, dist: map<Pos, int>, du: int,
                    s: nat, q': seq<Vertex>, dist': map<Pos, int>, p: Pos)
    requires Grids(w, board, enemy, barr) && InGrid(u, w.rows, w.cols) && s < |Directions|
    requires Partial(w, board, enemy, barr, c, u, dir, q, dist, du, s, q', dist')
    requires p == Step(u, Directions[s])
    requires InGrid(p, w.rows, w.cols) && board[p.i, p.j] != WALL ==>
               du + StepCost(w, board, enemy, barr, c, p) >= DistOf(dist', p)
    ensures Partial(w, board, enemy, barr, c, u, dir, q, dist, du, s + 1, q', dist')
  {
    forall k | 0 <= k < s + 1
      ensures NeighbourBound(w, board, enemy, barr, c, u, Directions[k], du, dist')
    {
      if k < s {
        assert NeighbourBound(w, board, enemy, barr, c, u, Directions[k], du, dist');
      }
    }
  }

  /** Once all four directions are done, the loop has relaxed every
      neighbour of u and changed nothing else. */
  lemma PartialDone(w: World, board: array2<int>, enemy: array2<int>, barr: array2<int>,
                    c: Citizen, u: Pos, dir: Dir, q: seq<Vertex>, dist: map<Pos, int>, du: int,
                    q': seq<Vertex>, dist': map<Pos, int>)
    requires Grids(w, board, enemy, barr) && InGrid(u, w.rows, w.cols)
    requires Partial(w, board, enemy, barr, c, u, dir, q, dist, du, |Directions|, q', dist')
    ensures Relaxation(w, board, enemy, barr, c, u, dir, q, dist, q', dist')
  {
    forall d: Dir
      ensures NeighbourRelaxed(w, board, enemy, barr, c, u, d, dist, dist')
    {
      assert NeighbourBound(w, board, enemy, barr, c, u, Directions[Rank(d)], du, dist');
    }
  }

  /** Lowering the distance of p and queueing it keeps the distances lowered. */
  lemma LoweredPush(q: seq<Vertex>, dist: map<Pos, int>, q': seq<Vertex>, dist': map<Pos, int>,
                    p: Pos, x: int, dir: Dir)
    requires Lowered(q, dist, q', dist') && x < DistOf(dist', p)
    requires forall v :: v in q'[|q|..] ==> v.pos != p
    ensures Lowered(q, dist, q' + [Vertex(x, p, dir)], dist'[p := x])
  {
    var r := q' + [Vertex(x, p, dir)];
    assert r[|q|..] == q'[|q|..] + [Vertex(x, p, dir)];
    assert r[..|q|] == q;
  }
}
