/** What the game host supplies to the player each round. The host itself
    (the game engine, Player.hh) is not part of this model: its queries
    become the fields of a World value. */
module Host {
  import opened Encoding

  datatype BonusKind = NoBonus | Food | Money

  /** cell(i, j): `resistance == -1` means no barricade; `id == -1` means nobody stands there. */
  datatype HostCell = HostCell(
    isBuilding: bool,
    bonus: BonusKind,
    weapon: WeaponKind,
    id: int,
    resistance: int,
    bOwner: int)

  /** citizen(id) */
  datatype Citizen = Citizen(
    id: int,
    kind: CitizenType,
    pos: Pos,
    life: int,
    weapon: WeaponKind,
    player: int)

  /** Game constants. */
  datatype Params = Params(
    lifeLostInAttack: int,
    builderDemolish: int,
    hammerDemolish: int,
    gunDemolish: int,
    bazookaDemolish: int,
    warriorIniLife: int,
    builderIniLife: int,
    barricadeMaxResistance: int,
    maxNumBarricades: int)
  {
    /** The host's divisors are positive. */
    predicate Valid()
    {
      lifeLostInAttack > 0 && builderDemolish > 0 && hammerDemolish > 0 &&
      gunDemolish > 0 && bazookaDemolish > 0
    }
  }

  /** One round's view of the game: the board, the citizens, the clock
      (`dayAt(r)` is is_round_day(r)), the constants, my player number,
      how many barricades I own, and my builders and warriors in host order. */
  datatype World = World(
    rows: int,
    cols: int,
    cells: seq<seq<HostCell>>,
    citizens: map<int, Citizen>,
    me: int,
    round: int,
    dayAt: int -> bool,
    params: Params,
    ownBarricades: int,
    builders: seq<int>,
    warriors: seq<int>)
  {
    /** The grid has the stated geometry, every occupant is a known, living
        citizen, my citizens are known and the constants are usable. */
    predicate WellFormed()
    {
      && 0 < rows && 0 < cols
      && |cells| == rows
      && (forall i :: 0 <= i < rows ==> |cells[i]| == cols)
      && (forall i, j :: 0 <= i < rows && 0 <= j < cols && cells[i][j].id != -1 ==>
            cells[i][j].id in citizens && citizens[cells[i][j].id].life > 0)
      && (forall id :: id in builders ==> id in citizens && citizens[id].kind == Builder)
      && (forall id :: id in warriors ==> id in citizens && citizens[id].kind == Warrior)
      && params.Valid()
    }

    /** Each of my citizens stands on the board. */
    predicate Placed()
    {
      && (forall id :: id in builders ==> id in citizens && InGrid(citizens[id].pos, rows, cols))
      && (forall id :: id in warriors ==> id in citizens && InGrid(citizens[id].pos, rows, cols))
    }

    /** cell(p) */
    function Cell(p: Pos): HostCell
      requires WellFormed() && InGrid(p, rows, cols)
    {
      cells[p.i][p.j]
    }

    predicate IsDay() { dayAt(round) }

    /** No attack can land between now and the next round. */
    predicate NoDamageWindow() { dayAt(round) && dayAt(round + 1) }
  }
}
