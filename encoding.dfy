/** Cell-content encoding, directions, weapons and the strength comparison
    used by the Eldar player (AIEldar.cc). */
module Encoding {

  /* Contents of a cell, from most to least beneficial. One scalar is a type
     tag, a power key and (negated) a danger magnitude at once. */
  const BAZOOKA := 6
  const GUN := 5
  const HAMMER := 4
  const BUILDER := 3
  const FOOD := 2
  const MONEY := 1
  const EMPTY := 0
  const FRIENDLY_CITIZEN := -1
  const WALL := -2
  const ENEMY_BUILDER := -3   // every enemy warrior is below this
  const ENEMY_HAMMER := -4
  const ENEMY_GUN := -5
  const ENEMY_BAZOOKA := -6

  datatype Option<T> = None | Some(value: T)

  /* INT_MIN of a 32-bit int: "no target found" and "never build". */
  const INT_MIN := -0x8000_0000

  datatype Dir = Up | Down | Left | Right

  /** The fixed iteration order of the four directions; the first one wins ties. */
  const Directions: seq<Dir> := [Up, Down, Left, Right]

  /** The place of d in Directions. */
  function Rank(d: Dir): (k: nat)
    ensures k < |Directions| && Directions[k] == d
  {
    match d
    case Up => 0
    case Down => 1
    case Left => 2
    case Right => 3
  }

  datatype Pos = Pos(i: int, j: int)

  /** The cell reached from p by one step in direction d (rows grow downwards). */
  function Step(p: Pos, d: Dir): (q: Pos)
    ensures q != p
    ensures q.i - p.i in {-1, 0, 1} && q.j - p.j in {-1, 0, 1}
    ensures (q.i == p.i) != (q.j == p.j)
  {
    match d
    case Up => Pos(p.i - 1, p.j)
    case Down => Pos(p.i + 1, p.j)
    case Left => Pos(p.i, p.j - 1)
    case Right => Pos(p.i, p.j + 1)
  }

  /** Going one step and then the opposite step returns to the start. */
  function Opposite(d: Dir): Dir
  {
    match d
    case Up => Down
    case Down => Up
    case Left => Right
    case Right => Left
  }

  lemma StepBack(p: Pos, d: Dir)
    ensures Step(Step(p, d), Opposite(d)) == p
  {
  }

  predicate InGrid(p: Pos, rows: int, cols: int)
  {
    0 <= p.i < rows && 0 <= p.j < cols
  }

  /** Two cells are orthogonal neighbours. */
  predicate Adjacent(p: Pos, q: Pos)
  {
    (p.i == q.i && (p.j - q.j == 1 || q.j - p.j == 1)) ||
    (p.j == q.j && (p.i - q.i == 1 || q.i - p.i == 1))
  }

  lemma AdjacentIsStep(p: Pos, q: Pos)
    ensures Adjacent(p, q) <==> exists d: Dir :: Step(p, d) == q
  {
    if Adjacent(p, q) {
      if q.i == p.i - 1 { assert Step(p, Up) == q; }
      else if q.i == p.i + 1 { assert Step(p, Down) == q; }
      else if q.j == p.j - 1 { assert Step(p, Left) == q; }
      else { assert Step(p, Right) == q; }
    }
  }

  datatype WeaponKind = NoWeapon | Hammer | Gun | Bazooka
  datatype CitizenType = Builder | Warrior

  /** The code of the weapon a citizen carries (AIEldar.cc:182-187). */
  function MyWeapon(w: WeaponKind): (r: int)
    ensures BUILDER <= r <= BAZOOKA
    ensures (r == BUILDER) == (w == NoWeapon)
    ensures (r == BAZOOKA) == (w == Bazooka)
    ensures (r == GUN) == (w == Gun)
  {
    match w
    case NoWeapon => BUILDER
    case Hammer => HAMMER
    case Gun => GUN
    case Bazooka => BAZOOKA
  }

  /** The weapon code loses no information. */
  lemma MyWeaponInjective(a: WeaponKind, b: WeaponKind)
    ensures MyWeapon(a) == MyWeapon(b) ==> a == b
  {
  }

  /** The content code of a cell holding an enemy citizen (AIEldar.cc:319-323):
      builders are ENEMY_BUILDER, warriors are classified by weapon, and every
      other weapon (none included) falls into the ENEMY_BAZOOKA branch. */
  function EnemyCode(kind: CitizenType, w: WeaponKind): (r: int)
    ensures ENEMY_BAZOOKA <= r <= ENEMY_BUILDER
    ensures (r == ENEMY_BUILDER) == (kind == Builder)
    ensures kind == Warrior && w != NoWeapon ==> r == -MyWeapon(w)
  {
    if kind == Builder then ENEMY_BUILDER
    else if w == Hammer then ENEMY_HAMMER
    else if w == Gun then ENEMY_GUN
    else ENEMY_BAZOOKA
  }

  /** is_stronger (AIEldar.cc:358-363): my citizen with weapon code `weapon`
      and life `life` against the enemy in a cell with code `code` and life
      `enemyLife`; equal tiers are decided by remaining life. */
  function IsStronger(weapon: int, life: int, code: int, enemyLife: int): (r: bool)
    ensures weapon > -code ==> r
    ensures weapon < -code ==> !r
    ensures weapon == -code ==> (r <==> life > enemyLife)
  {
    if weapon == -code then life > enemyLife else weapon > -code
  }

  /** Two citizens can never each be stronger than the other. */
  lemma IsStrongerAsymmetric(wa: int, la: int, wb: int, lb: int)
    ensures IsStronger(wa, la, -wb, lb) ==> !IsStronger(wb, lb, -wa, la)
  {
  }

  /** Of two citizens, exactly one is stronger unless tier and life both tie. */
  lemma IsStrongerTotal(wa: int, la: int, wb: int, lb: int)
    ensures IsStronger(wa, la, -wb, lb) || IsStronger(wb, lb, -wa, la) || (wa == wb && la == lb)
  {
  }
}
