/** What build_board (AIEldar.cc:289-344) computes from the host's view of
    one round, stated cell by cell: the content code, the signed barricade
    value, the bonus-table entry and the enemy/danger value. */
module Snapshot {
  import opened Encoding
  import opened Host

  /** Bonus_Info (AIEldar.cc:114-123): kind 'U' (undefined), 'M' (money) or
      'W' (weapon), and the closest interested citizen found for it. */
  datatype BonusInfo = BonusInfo(kind: char, closestDist: int, closestIsFriendly: bool)

  const DefaultInfo := BonusInfo('U', 0, false)

  function Min(a: int, b: int): int { if a <= b then a else b }

  /** No building, bonus or weapon lies on the cell: what shows is its occupant, if any. */
  predicate Unclaimed(c: HostCell)
  {
    !c.isBuilding && c.bonus.NoBonus? && c.weapon != Gun && c.weapon != Bazooka
  }

  /** The content code of cell p, with the precedence of AIEldar.cc:301-335:
      building, food, money, gun, bazooka, citizen, empty. */
  function Classify(w: World, p: Pos): (r: int)
    requires w.WellFormed() && InGrid(p, w.rows, w.cols)
    ensures ENEMY_BAZOOKA <= r <= BAZOOKA && r != HAMMER && r != BUILDER
    ensures r <= ENEMY_BUILDER ==> w.Cell(p).id != -1
    ensures r == WALL <==> w.Cell(p).isBuilding
    ensures r == FOOD <==> !w.Cell(p).isBuilding && w.Cell(p).bonus == Food
    ensures r == MONEY <==> !w.Cell(p).isBuilding && w.Cell(p).bonus == Money
    ensures r == GUN <==> !w.Cell(p).isBuilding && w.Cell(p).bonus.NoBonus? && w.Cell(p).weapon == Gun
    ensures r == BAZOOKA <==> !w.Cell(p).isBuilding && w.Cell(p).bonus.NoBonus? && w.Cell(p).weapon == Bazooka
    ensures r == FRIENDLY_CITIZEN <==>
              Unclaimed(w.Cell(p)) && w.Cell(p).id != -1 && w.citizens[w.Cell(p).id].player == w.me
    ensures r <= ENEMY_BUILDER <==>
              Unclaimed(w.Cell(p)) && w.Cell(p).id != -1 && w.citizens[w.Cell(p).id].player != w.me
    ensures r <= ENEMY_BUILDER ==>
              r == EnemyCode(w.citizens[w.Cell(p).id].kind, w.citizens[w.Cell(p).id].weapon)
    ensures r == EMPTY <==> Unclaimed(w.Cell(p)) && w.Cell(p).id == -1
  {
    var c := w.Cell(p);
    if c.isBuilding then WALL
    else if c.bonus == Food then FOOD
    else if c.bonus == Money then MONEY
    else if c.weapon == Gun then GUN
    else if c.weapon == Bazooka then BAZOOKA
    else if c.id != -1 then
      var cit := w.citizens[c.id];
      if cit.player == w.me then FRIENDLY_CITIZEN else EnemyCode(cit.kind, cit.weapon)
    else EMPTY
  }

  /** An enemy citizen is what a cell shows. */
  predicate IsEnemy(w: World, p: Pos)
    requires w.WellFormed()
  {
    InGrid(p, w.rows, w.cols) && Classify(w, p) <= ENEMY_BUILDER
  }

  /** Life of the citizen standing on p. */
  function LifeAt(w: World, p: Pos): (r: int)
    requires w.WellFormed() && InGrid(p, w.rows, w.cols) && w.Cell(p).id != -1
    ensures r > 0
  {
    w.citizens[w.Cell(p).id].life
  }

  /** The barricade value of p: my barricade's resistance, minus an enemy
      barricade's resistance, 0 where there is none (AIEldar.cc:338-342). */
  function BarricadeValue(w: World, p: Pos): (r: int)
    requires w.WellFormed() && InGrid(p, w.rows, w.cols)
    ensures w.Cell(p).resistance == -1 ==> r == 0
    ensures w.Cell(p).resistance >= 0 ==>
              (if w.Cell(p).bOwner == w.me then r >= 0 else r <= 0) &&
              (r == w.Cell(p).resistance || r == -w.Cell(p).resistance)
  {
    var c := w.Cell(p);
    if c.resistance == -1 then 0
    else if c.bOwner == w.me then c.resistance
    else -c.resistance
  }

  /** The bonus-table entry build_board inserts for p, if any (AIEldar.cc:303-314). */
  function BonusEntry(w: World, p: Pos): (r: Option<BonusInfo>)
    requires w.WellFormed() && InGrid(p, w.rows, w.cols)
    ensures r.Some? <==> Classify(w, p) in {MONEY, GUN, BAZOOKA}
    ensures r.Some? ==> r.value == BonusInfo(if Classify(w, p) == MONEY then 'M' else 'W', 0, false)
  {
    var c := w.Cell(p);
    if c.isBuilding || c.bonus == Food then None
    else if c.bonus == Money then Some(BonusInfo('M', 0, false))
    else if c.weapon == Gun || c.weapon == Bazooka then Some(BonusInfo('W', 0, false))
    else None
  }

  /** update_danger (AIEldar.cc:282-286): a cell holding an enemy's life, or
      the danger of an equal or stronger enemy, is kept; otherwise it takes
      the new enemy's code. */
  function MergeDanger(cell: int, enemy: int): (r: int)
    ensures cell > 0 ==> r == cell
    ensures cell <= 0 ==> r <= cell && r <= enemy && (r == cell || r == enemy)
  {
    if cell > 0 || cell <= enemy then cell else enemy
  }

  /** Merging the same enemy twice is merging it once. */
  lemma MergeDangerIdempotent(cell: int, enemy: int)
    ensures MergeDanger(MergeDanger(cell, enemy), enemy) == MergeDanger(cell, enemy)
  {
  }

  /** The order in which enemies are merged does not matter. */
  lemma MergeDangerCommutes(cell: int, a: int, b: int)
    ensures MergeDanger(MergeDanger(cell, a), b) == MergeDanger(MergeDanger(cell, b), a)
  {
  }

  /** Row-major scan order: q has been visited before the scan reaches cur. */
  predicate Before(q: Pos, cur: Pos)
  {
    q.i < cur.i || (q.i == cur.i && q.j < cur.j)
  }

  /** The danger code an already scanned enemy on q contributes to its neighbours. */
  function Threat(w: World, q: Pos, cur: Pos): (r: int)
    requires w.WellFormed()
    ensures r <= 0
  {
    if IsEnemy(w, q) && Before(q, cur) then Classify(w, q) else 0
  }

  /** Board_Enemy[p] once the scan has reached cur: the life of an enemy
      already scanned on p, else the strongest danger code of the scanned
      enemies next to p, else 0. */
  function DangerAt(w: World, p: Pos, cur: Pos): int
    requires w.WellFormed() && InGrid(p, w.rows, w.cols)
  {
    if IsEnemy(w, p) && Before(p, cur) then LifeAt(w, p)
    else Min(Min(Min(Min(0, Threat(w, Step(p, Up), cur)), Threat(w, Step(p, Down), cur)),
                 Threat(w, Step(p, Left), cur)), Threat(w, Step(p, Right), cur))
  }

  /** Board_Enemy[p] at the end of build_board. */
  function EnemyGrid(w: World, p: Pos): int
    requires w.WellFormed() && InGrid(p, w.rows, w.cols)
  {
    DangerAt(w, p, Pos(w.rows, 0))
  }

  /** The value v of Board_Enemy at p once an enemy with the given life and
      code has been scanned on c: its life on c, update_danger next to it,
      no change elsewhere. */
  function Spread(v: int, p: Pos, c: Pos, life: int, code: int): int
  {
    if p == c then life else if Adjacent(p, c) then MergeDanger(v, code) else v
  }

  /** Scanning cell c changes Board_Enemy exactly as build_board does: the
      life on c itself, update_danger on each neighbour, nothing elsewhere. */
  lemma DangerStep(w: World, p: Pos, c: Pos)
    requires w.WellFormed() && InGrid(p, w.rows, w.cols) && InGrid(c, w.rows, w.cols)
    ensures DangerAt(w, p, Pos(c.i, c.j + 1)) ==
      if IsEnemy(w, c) then Spread(DangerAt(w, p, c), p, c, LifeAt(w, c), Classify(w, c))
      else DangerAt(w, p, c)
  {
    var next := Pos(c.i, c.j + 1);
    ThreatsKept(w, c);
    if !IsEnemy(w, c) {
      assert Threat(w, c, next) == Threat(w, c, c);
    } else if p != c && Adjacent(p, c) && !(IsEnemy(w, p) && Before(p, c)) {
      assert Threat(w, c, next) == Classify(w, c);
      assert Threat(w, c, c) == 0;
      AdjacentIsStep(p, c);
    } else if p != c && !Adjacent(p, c) {
      AdjacentIsStep(p, c);
    }
  }

  /** Scanning cell c reveals no threat but c's own. */
  lemma ThreatsKept(w: World, c: Pos)
    requires w.WellFormed()
    ensures forall q :: q != c ==> Threat(w, q, Pos(c.i, c.j + 1)) == Threat(w, q, c)
  {
  }

  /** The end of a row is the start of the next one. */
  lemma DangerRowEnd(w: World, p: Pos, i: int)
    requires w.WellFormed() && InGrid(p, w.rows, w.cols)
    ensures DangerAt(w, p, Pos(i, w.cols)) == DangerAt(w, p, Pos(i + 1, 0))
  {
    forall q
      ensures Threat(w, q, Pos(i, w.cols)) == Threat(w, q, Pos(i + 1, 0))
    {
    }
  }

  /** What Board_Enemy means once built (AIEldar.cc:292-333): a positive value
      is the life of the enemy on that cell; elsewhere the value is 0 or the
      code of an adjacent enemy, never weaker than any adjacent enemy's code. */
  lemma EnemyGridMeaning(w: World, p: Pos)
    requires w.WellFormed() && InGrid(p, w.rows, w.cols)
    ensures IsEnemy(w, p) ==> EnemyGrid(w, p) == LifeAt(w, p)
    ensures !IsEnemy(w, p) ==> EnemyGrid(w, p) <= 0
    ensures !IsEnemy(w, p) ==> forall d: Dir :: IsEnemy(w, Step(p, d)) ==> EnemyGrid(w, p) <= Classify(w, Step(p, d))
    ensures !IsEnemy(w, p) && EnemyGrid(w, p) < 0 ==>
              exists d: Dir :: IsEnemy(w, Step(p, d)) && EnemyGrid(w, p) == Classify(w, Step(p, d))
    ensures !IsEnemy(w, p) && (forall d: Dir :: !IsEnemy(w, Step(p, d))) ==> EnemyGrid(w, p) == 0
  {
    var end := Pos(w.rows, 0);
    forall q | IsEnemy(w, q)
      ensures Threat(w, q, end) == Classify(w, q)
    {
    }
    if !IsEnemy(w, p) && EnemyGrid(w, p) < 0 {
      var tu, td := Threat(w, Step(p, Up), end), Threat(w, Step(p, Down), end);
      var tl, tr := Threat(w, Step(p, Left), end), Threat(w, Step(p, Right), end);
      if EnemyGrid(w, p) == tu { assert IsEnemy(w, Step(p, Up)); }
      else if EnemyGrid(w, p) == td { assert IsEnemy(w, Step(p, Down)); }
      else if EnemyGrid(w, p) == tl { assert IsEnemy(w, Step(p, Left)); }
      else { assert IsEnemy(w, Step(p, Right)); }
    }
  }
}
