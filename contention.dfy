/** compute_closest (AIEldar.cc:205-279): for one bonus cell, the first
    interested citizen met by a search that pops the nearest cell first. */
module Contention {
  import opened Encoding
  import opened Host
  import opened Snapshot
  import opened Queues

  /** u holds a citizen interested in a bonus of the given kind whose cell
      code is `weapon` (AIEldar.cc:228-257): anyone for money; for a weapon
      only one of my warriors with a weaker weapon, or an enemy warrior
      (never an enemy builder) whose tier is below the weapon. */
  predicate Interested(w: World, board: array2<int>, kind: char, weapon: int, u: Pos)
    requires w.WellFormed() && InGrid(u, board.Length0, board.Length1)
    requires board.Length0 == w.rows && board.Length1 == w.cols
    reads board
  {
    var b := board[u.i, u.j];
    if kind == 'M' then b <= ENEMY_BUILDER || b == FRIENDLY_CITIZEN
    else if kind == 'W' then
      if b == FRIENDLY_CITIZEN then
        var id := w.Cell(u).id;
        id in w.citizens && w.citizens[id].kind == Warrior && MyWeapon(w.citizens[id].weapon) < weapon
      else b < ENEMY_BUILDER && -b < weapon
    else false
  }

  /** Enemy builders never count as interested in a weapon. */
  lemma EnemyBuilderNeverWantsWeapon(w: World, board: array2<int>, weapon: int, u: Pos)
    requires w.WellFormed() && InGrid(u, board.Length0, board.Length1)
    requires board.Length0 == w.rows && board.Length1 == w.cols
    requires board[u.i, u.j] == ENEMY_BUILDER
    ensures !Interested(w, board, 'W', weapon, u)
    ensures Interested(w, board, 'M', weapon, u)
  {
  }

  /** The frontier invariant of the search: every queued vertex lies on the
      grid, is not a wall (the origin aside), is no nearer than the last
      popped distance and no nearer than its cell's recorded distance; every
      reached but unexpanded cell has its current distance queued. */
  ghost predicate Frontier(board: array2<int>, dist: map<Pos, int>, origin: Pos,
                           q: seq<Vertex>, last: int, done: set<Pos>)
    reads board
  {
    var n, m := board.Length0, board.Length1;
    && (forall v :: v in q ==>
          && InGrid(v.pos, n, m) && v.dir == Up
          && (v.pos == origin || board[v.pos.i, v.pos.j] != WALL)
          && last <= v.dist < INF
          && DistOf(dist, v.pos) <= v.dist)
    && (forall p: Pos :: InGrid(p, n, m) && p !in done && DistOf(dist, p) < INF ==>
          Vertex(DistOf(dist, p), p, Up) in q)
    && (forall p: Pos :: InGrid(p, n, m) ==> DistOf(dist, p) <= INF)
  }

  /** Popping the top of the frontier: an already expanded cell is dropped;
      otherwise the popped distance is the cell's recorded distance, and it
      becomes the new last distance. */
  lemma PopFrontier(board: array2<int>, dist: map<Pos, int>, origin: Pos,
                    q: seq<Vertex>, last: int, done: set<Pos>, t: nat)
    requires Frontier(board, dist, origin, q, last, done)
    requires |q| > 0 && t == TopVertex(q)
    ensures q[t].pos in done ==> Frontier(board, dist, origin, RemoveAt(q, t), last, done)
    ensures q[t].pos !in done ==>
              && DistOf(dist, q[t].pos) == q[t].dist
              && last <= q[t].dist
              && Frontier(board, dist, origin, RemoveAt(q, t), q[t].dist, done + {q[t].pos})
  {
    var top := q[t];
    var u := top.pos;
    var r := RemoveAt(q, t);
    TopVertexIsNearest(q);
    assert top in q;
    if u !in done {
      assert Vertex(DistOf(dist, u), u, Up) in q;
    }
    forall p: Pos | InGrid(p, board.Length0, board.Length1) && p !in done && p != u && DistOf(dist, p) < INF
      ensures Vertex(DistOf(dist, p), p, Up) in r
    {
      assert Vertex(DistOf(dist, p), p, Up) in q;
    }
  }

  /** The log of expanded cells: it starts at the origin with distance 0,
      lists each cell once, on the grid and off the walls, in non-decreasing
      distance up to `last`, and every logged cell is marked visited. */
  ghost predicate ClosestLog(board: array2<int>, origin: Pos, order: seq<Vertex>, visited: set<Pos>, last: int)
    reads board
  {
    && (order != [] ==> order[0] == Vertex(0, origin, Up) && last == order[|order| - 1].dist)
    && (forall k :: 0 <= k < |order| ==>
          && order[k].pos in visited && order[k].dist <= last
          && InGrid(order[k].pos, board.Length0, board.Length1)
          && (k > 0 ==> board[order[k].pos.i, order[k].pos.j] != WALL))
    && (forall a, b :: 0 <= a < b < |order| ==> order[a].pos != order[b].pos)
    && (forall a, b :: 0 <= a < b < |order| ==> order[a].dist <= order[b].dist)
  }

  /** Expanding a cell not visited before, at a distance no smaller than the
      last one, extends the log. */
  lemma LogAppend(board: array2<int>, origin: Pos, order: seq<Vertex>, visited: set<Pos>,
                  last: int, u: Pos, d: int)
    requires ClosestLog(board, origin, order, visited, last)
    requires order == [] ==> u == origin && d == 0
    requires order != [] ==> origin in visited
    requires u !in visited && last <= d && InGrid(u, board.Length0, board.Length1)
    requires u == origin || board[u.i, u.j] != WALL
    ensures ClosestLog(board, origin, order + [Vertex(d, u, Up)], visited + {u}, d)
  {
  }

  /** The outcome of compute_closest for the bonus on `origin`: `order`
      lists the cells expanded, the origin first at distance 0, each cell on
      the grid, off the walls and expanded once, in non-decreasing distance;
      no cell but the last holds an interested citizen; the entry records
      the last cell's distance and side when it holds one, and otherwise
      keeps its defaults. The kind never changes. */
  ghost predicate Closest(w: World, board: array2<int>, origin: Pos, info: BonusInfo,
                          r: BonusInfo, order: seq<Vertex>)
    reads board
  {
    && w.WellFormed() && board.Length0 == w.rows && board.Length1 == w.cols && InGrid(origin, w.rows, w.cols)
    && r.kind == info.kind
    && |order| >= 1 && order[0] == Vertex(0, origin, Up)
    && (forall k :: 0 <= k < |order| ==>
          InGrid(order[k].pos, w.rows, w.cols) && (k > 0 ==> board[order[k].pos.i, order[k].pos.j] != WALL))
    && (forall a, b :: 0 <= a < b < |order| ==> order[a].pos != order[b].pos)
    && (forall a, b :: 0 <= a < b < |order| ==> order[a].dist <= order[b].dist)
    && (forall k :: 0 <= k < |order| - 1 ==>
          !Interested(w, board, info.kind, board[origin.i, origin.j], order[k].pos))
    && var u := order[|order| - 1];
       if Interested(w, board, info.kind, board[origin.i, origin.j], u.pos)
       then r == BonusInfo(info.kind, u.dist, board[u.pos.i, u.pos.j] == FRIENDLY_CITIZEN)
       else r == info
  }

  /** The search. `order` lists the expanded cells with their distances.
      Each cell is expanded at most once, nearest first; the search stops
      at the first interested citizen and records its distance and side,
      and when nobody is interested the entry keeps its defaults. Every edge
      costs one turn: the barricade cost of AIEldar.cc:267-268 is added to a
      variable that is never read again. */
  method ComputeClosest(w: World, board: array2<int>, origin: Pos, info: BonusInfo)
    returns (r: BonusInfo, ghost order: seq<Vertex>)
    requires w.WellFormed() && board.Length0 == w.rows && board.Length1 == w.cols
    requires InGrid(origin, w.rows, w.cols)
    ensures Closest(w, board, origin, info, r, order)
    ensures r.kind == info.kind && (r != info ==> r.closestDist >= 0)
    ensures Closed(board, order, Reach(w, board, origin, info.kind, order))
  {
    var weapon := board[origin.i, origin.j];
    var found, u, distance;
    ghost var q, dist, visited, last, all;
    found, u, distance, q, dist, visited, order, last, all := Scan(w, board, origin, info.kind, weapon);
    if found {
      r := BonusInfo(info.kind, distance, board[u.i, u.j] == FRIENDLY_CITIZEN);
      FoundNearest(w, board, dist, origin, info, weapon, q, visited, order, last, all, u, distance);
    } else {
      // nobody is interested in this bonus: the defaults stay
      r := info;
      Exhausted(w, board, dist, origin, info, weapon, q, visited, order, last, all);
    }
  }

  /** The loop of compute_closest (AIEldar.cc:212-277): expand cells
      nearest first from the bonus until an interested citizen is expanded
      or the queue runs out. */
  method Scan(w: World, board: array2<int>, origin: Pos, kind: char, weapon: int)
    returns (found: bool, u: Pos, distance: int, ghost q: seq<Vertex>, ghost dist: map<Pos, int>,
             ghost visited: set<Pos>, ghost order: seq<Vertex>, ghost last: int, ghost all: set<Pos>)
    requires w.WellFormed() && board.Length0 == w.rows && board.Length1 == w.cols
    requires InGrid(origin, w.rows, w.cols)
    ensures !found ==> q == [] && SearchInv(w, board, dist, origin, kind, weapon, q, visited, order, last, all)
    ensures found ==>
              && Expanding(w, board, dist, origin, kind, weapon, q, visited, order, last, all)
              && order[|order| - 1] == Vertex(distance, u, Up)
              && Interested(w, board, kind, weapon, u)
  {
    var n, m := w.rows, w.cols;
    all := set i, j | 0 <= i < n && 0 <= j < m :: Pos(i, j);
    var vis: set<Pos> := {};
    last := 0;
    order := [];
    var d := map[origin := 0];
    var queue := [Vertex(0, origin, Up)];
    found, u, distance := false, origin, 0;
    ScanStart(w, board, origin, kind, weapon, all);
    while queue != []
      invariant SearchInv(w, board, d, origin, kind, weapon, queue, vis, order, last, all)
      decreases all - vis, |queue|
    {
      queue, d, vis, order, last, found, u, distance :=
        SearchStep(w, board, d, origin, kind, weapon, queue, vis, order, last, all);
      if found {
        q, dist, visited := queue, d, vis;
        return;
      }
    }
    q, dist, visited := queue, d, vis;
  }

  /** The loop invariant holds with only the bonus queued, at distance 0. */
  lemma ScanStart(w: World, board: array2<int>, origin: Pos, kind: char, weapon: int, all: set<Pos>)
    requires w.WellFormed() && board.Length0 == w.rows && board.Length1 == w.cols
    requires InGrid(origin, w.rows, w.cols)
    requires all == set i, j | 0 <= i < w.rows && 0 <= j < w.cols :: Pos(i, j)
    ensures SearchInv(w, board, map[origin := 0], origin, kind, weapon, [Vertex(0, origin, Up)], {}, [], 0, all)
  {
  }

  /** How far the search is closed once it stops: up to the distance of the
      interested citizen it stopped at, or everywhere. */
  ghost function Reach(w: World, board: array2<int>, origin: Pos, kind: char, order: seq<Vertex>): int
    requires w.WellFormed() && board.Length0 == w.rows && board.Length1 == w.cols && InGrid(origin, w.rows, w.cols)
    requires |order| >= 1 && InGrid(order[|order| - 1].pos, w.rows, w.cols)
    reads board
  {
    var u := order[|order| - 1];
    if Interested(w, board, kind, board[origin.i, origin.j], u.pos) then u.dist else INF
  }

  /** The search finds the nearest interested citizen: whenever one can be
      reached from the bonus through non-wall cells in `length` steps, the
      entry records an interested citizen no farther than that. So the
      defaults stay only when no interested citizen is reachable at all. */
  lemma NearestInterested(w: World, board: array2<int>, origin: Pos, info: BonusInfo, r: BonusInfo,
                          order: seq<Vertex>, path: seq<Pos>)
    requires Closest(w, board, origin, info, r, order)
    requires Closed(board, order, Reach(w, board, origin, info.kind, order))
    requires IsPath(board, origin, path) && |path| <= INF
    requires Interested(w, board, info.kind, board[origin.i, origin.j], path[|path| - 1])
    ensures Interested(w, board, info.kind, board[origin.i, origin.j], order[|order| - 1].pos)
    ensures order[|order| - 1].dist <= |path| - 1
  {
    var u := order[|order| - 1];
    var weapon := board[origin.i, origin.j];
    if !Interested(w, board, info.kind, weapon, u.pos) || |path| - 1 < u.dist {
      PathLogged(board, origin, order, Reach(w, board, origin, info.kind, order), path);
    }
  }

  /** The search stops at the first interested citizen it expands, and
      its log is closed up to that citizen's distance. */
  lemma FoundNearest(w: World, board: array2<int>, dist: map<Pos, int>, origin: Pos, info: BonusInfo,
                     weapon: int, q: seq<Vertex>, visited: set<Pos>, order: seq<Vertex>, last: int,
                     all: set<Pos>, u: Pos, distance: int)
    requires Expanding(w, board, dist, origin, info.kind, weapon, q, visited, order, last, all)
    requires weapon == board[origin.i, origin.j]
    requires order[|order| - 1] == Vertex(distance, u, Up)
    requires Interested(w, board, info.kind, weapon, u)
    ensures Closest(w, board, origin, info, BonusInfo(info.kind, distance, board[u.i, u.j] == FRIENDLY_CITIZEN), order)
    ensures Closed(board, order, Reach(w, board, origin, info.kind, order))
  {
    CloseOff(board, dist, origin, q, last, visited, order, distance);
  }

  /** With the queue empty, no cell of the log was interested: the entry
      keeps its defaults. */
  lemma Exhausted(w: World, board: array2<int>, dist: map<Pos, int>, origin: Pos, info: BonusInfo, weapon: int,
                  q: seq<Vertex>, visited: set<Pos>, order: seq<Vertex>, last: int, all: set<Pos>)
    requires SearchInv(w, board, dist, origin, info.kind, weapon, q, visited, order, last, all)
    requires q == [] && weapon == board[origin.i, origin.j]
    ensures Closest(w, board, origin, info, info, order)
    ensures Closed(board, order, Reach(w, board, origin, info.kind, order))
  {
    assert order != [];
    CloseOff(board, dist, origin, q, last, visited, order, INF);
  }

  /** The loop invariant of compute_closest. */
  ghost predicate SearchInv(w: World, board: array2<int>, dist: map<Pos, int>, origin: Pos,
                            kind: char, weapon: int, q: seq<Vertex>, visited: set<Pos>,
                            order: seq<Vertex>, last: int, all: set<Pos>)
    reads board
  {
    && w.WellFormed() && board.Length0 == w.rows && board.Length1 == w.cols
    && InGrid(origin, w.rows, w.cols)
    && all == (set i, j | 0 <= i < w.rows && 0 <= j < w.cols :: Pos(i, j))
    && visited <= all
    && Frontier(board, dist, origin, q, last, visited)
    && (order == [] ==> visited == {} && q == [Vertex(0, origin, Up)] && last == 0)
    && (order != [] ==> origin in visited)
    && ClosestLog(board, origin, order, visited, last)
    && (forall k :: 0 <= k < |order| ==> !Interested(w, board, kind, weapon, order[k].pos))
    && visited == Cells(order)
    && (forall k :: 0 <= k < |order| ==> DistOf(dist, order[k].pos) == order[k].dist)
    && (forall k :: 0 <= k < |order| ==> Relaxed(board, dist, order[k]))
  }

  /** One turn of the loop of AIEldar.cc:220-277: pop the nearest vertex;
      skip it if already expanded; otherwise log it, stop if it is an
      interested citizen, else relax its neighbours. */
  method SearchStep(w: World, board: array2<int>, dist: map<Pos, int>, origin: Pos,
                    kind: char, weapon: int, q: seq<Vertex>, visited: set<Pos>,
                    ghost order: seq<Vertex>, ghost last: int, ghost all: set<Pos>)
    returns (q': seq<Vertex>, dist': map<Pos, int>, visited': set<Pos>, ghost order': seq<Vertex>, ghost last': int,
             found: bool, u: Pos, distance: int)
    requires SearchInv(w, board, dist, origin, kind, weapon, q, visited, order, last, all)
    requires q != []
    ensures !found ==> SearchInv(w, board, dist', origin, kind, weapon, q', visited', order', last', all)
    ensures !found ==> all - visited' < all - visited || (visited' == visited && |q'| < |q|)
    ensures found ==>
              && Expanding(w, board, dist', origin, kind, weapon, q', visited', order', last', all)
              && order'[|order'| - 1] == Vertex(distance, u, Up)
              && Interested(w, board, kind, weapon, u)
  {
    var t := TopVertex(q);
    u := q[t].pos;
    PopFrontier(board, dist, origin, q, last, visited, t);
    q' := RemoveAt(q, t);
    dist', visited', order', last', found, distance := dist, visited, order, last, false, 0;
    if u in visited {
      return;
    }
    distance := DistOf(dist, u);
    visited' := visited + {u};
    last' := distance;
    order' := order + [Vertex(distance, u, Up)];
    ClosestPopped(w, board, dist, origin, kind, weapon, q, visited, order, last, all, t);
    if Interested(w, board, kind, weapon, u) {
      found := true;
      return;
    }
    ghost var popped := q';
    q', dist' := Relax(board, dist, origin, q', last', visited', u);
    Relaxing(w, board, dist, dist', origin, kind, weapon, popped, q', visited', order', last', all);
  }

  /** The state right after a cell is expanded and before its neighbours
      are relaxed: the search invariant holds for every logged cell but
      the last, which is the one just expanded. */
  ghost predicate Expanding(w: World, board: array2<int>, dist: map<Pos, int>, origin: Pos,
                            kind: char, weapon: int, q: seq<Vertex>, visited: set<Pos>,
                            order: seq<Vertex>, last: int, all: set<Pos>)
    reads board
  {
    && w.WellFormed() && board.Length0 == w.rows && board.Length1 == w.cols
    && InGrid(origin, w.rows, w.cols)
    && all == (set i, j | 0 <= i < w.rows && 0 <= j < w.cols :: Pos(i, j))
    && visited <= all
    && Frontier(board, dist, origin, q, last, visited)
    && order != [] && origin in visited && last < INF
    && ClosestLog(board, origin, order, visited, last)
    && visited == Cells(order)
    && (forall k :: 0 <= k < |order| ==> DistOf(dist, order[k].pos) == order[k].dist)
    && (forall k :: 0 <= k < |order| - 1 ==>
          !Interested(w, board, kind, weapon, order[k].pos) && Relaxed(board, dist, order[k]))
  }

  /** Popping a cell not expanded before logs it. */
  lemma ClosestPopped(w: World, board: array2<int>, dist: map<Pos, int>, origin: Pos,
                      kind: char, weapon: int, q: seq<Vertex>, visited: set<Pos>,
                      order: seq<Vertex>, last: int, all: set<Pos>, t: nat)
    requires SearchInv(w, board, dist, origin, kind, weapon, q, visited, order, last, all)
    requires |q| > 0 && t == TopVertex(q) && q[t].pos !in visited
    ensures DistOf(dist, q[t].pos) == q[t].dist
    ensures var u := q[t].pos;
            Expanding(w, board, dist, origin, kind, weapon, RemoveAt(q, t), visited + {u},
                      order + [Vertex(q[t].dist, u, Up)], q[t].dist, all)
  {
    var u := q[t].pos;
    PopFrontier(board, dist, origin, q, last, visited, t);
    assert q[t] in q;
    assert u == Pos(u.i, u.j);
    LogAppend(board, origin, order, visited, last, u, q[t].dist);
    CellsAppend(order, Vertex(q[t].dist, u, Up));
  }

  /** Relaxing the neighbours of the cell just expanded, which holds no
      interested citizen, restores the search invariant. */
  lemma Relaxing(w: World, board: array2<int>, dist: map<Pos, int>, dist': map<Pos, int>, origin: Pos,
                 kind: char, weapon: int, q: seq<Vertex>, q': seq<Vertex>, visited: set<Pos>,
                 order: seq<Vertex>, last: int, all: set<Pos>)
    requires Expanding(w, board, dist, origin, kind, weapon, q, visited, order, last, all)
    requires !Interested(w, board, kind, weapon, order[|order| - 1].pos)
    requires Frontier(board, dist', origin, q', last, visited)
    requires Relaxed(board, dist', order[|order| - 1])
    requires forall p :: DistOf(dist', p) == DistOf(dist, p) || DistOf(dist', p) == last + 1 < DistOf(dist, p)
    ensures SearchInv(w, board, dist', origin, kind, weapon, q', visited, order, last, all)
  {
    forall k | 0 <= k < |order|
      ensures DistOf(dist', order[k].pos) == order[k].dist
    {
      assert DistOf(dist, order[k].pos) == order[k].dist <= last;
    }
    forall k, d: Dir | 0 <= k < |order| - 1
      ensures NextTo(board, dist', order[k].pos, d, order[k].dist)
    {
      assert NextTo(board, dist, order[k].pos, d, order[k].dist);
    }
  }

  /** The neighbour loop of AIEldar.cc:261-276: each non-wall neighbour of u
      whose distance improves gets distance dist[u] + 1 and is queued, so
      afterwards no non-wall neighbour is farther than that. */
  method Relax(board: array2<int>, dist: map<Pos, int>, origin: Pos,
               q: seq<Vertex>, ghost last: int, ghost done: set<Pos>, u: Pos)
    returns (q': seq<Vertex>, dist': map<Pos, int>)
    requires InGrid(u, board.Length0, board.Length1) && DistOf(dist, u) == last
    requires Frontier(board, dist, origin, q, last, done)
    ensures Frontier(board, dist', origin, q', last, done)
    ensures DistOf(dist', u) == last
    ensures Relaxed(board, dist', Vertex(last, u, Up))
    ensures forall p :: DistOf(dist', p) == DistOf(dist, p) || DistOf(dist', p) == last + 1 < DistOf(dist, p)
    ensures |q| <= |q'| && q'[..|q|] == q
    ensures forall v :: v in q'[|q|..] ==> v == Vertex(last + 1, v.pos, Up) && DistOf(dist', v.pos) == last + 1
  {
    q', dist' := q, dist;
    for s := 0 to |Directions|
      invariant Neighbouring(board, dist, origin, q, last, done, u, s, q', dist')
    {
      var p := Step(u, Directions[s]);
      if InGrid(p, board.Length0, board.Length1) && board[p.i, p.j] != WALL {
        var newDistance := DistOf(dist', u) + 1;
        if newDistance < DistOf(dist', p) {
          RelaxPush(board, dist, origin, q, last, done, u, s, q', dist', p, newDistance);
          dist' := dist'[p := newDistance];
          q' := q' + [Vertex(newDistance, p, Up)];
        } else {
          RelaxSkip(board, dist, origin, q, last, done, u, s, q', dist', p);
        }
      } else {
        RelaxSkip(board, dist, origin, q, last, done, u, s, q', dist', p);
      }
    }
    forall d: Dir
      ensures NextTo(board, dist', u, d, last)
    {
      assert Directions[Rank(d)] == d;
    }
  }

  /** What the neighbour loop at u has done after the first s directions. */
  ghost predicate Neighbouring(board: array2<int>, dist: map<Pos, int>, origin: Pos, q: seq<Vertex>, last: int,
                           done: set<Pos>, u: Pos, s: nat, q': seq<Vertex>, dist': map<Pos, int>)
    reads board
  {
    && Frontier(board, dist', origin, q', last, done)
    && DistOf(dist', u) == last
    && (forall k :: 0 <= k < s <= |Directions| ==> NextTo(board, dist', u, Directions[k], last))
    && (forall p :: DistOf(dist', p) == DistOf(dist, p) || DistOf(dist', p) == last + 1 < DistOf(dist, p))
    && |q| <= |q'| && q'[..|q|] == q
    && (forall v :: v in q'[|q|..] ==> v == Vertex(last + 1, v.pos, Up) && DistOf(dist', v.pos) == last + 1)
  }

  /** Queueing the s-th neighbour one turn past u extends the loop's
      invariant by one direction. */
  lemma RelaxPush(board: array2<int>, dist: map<Pos, int>, origin: Pos, q: seq<Vertex>, last: int,
                  done: set<Pos>, u: Pos, s: nat, q': seq<Vertex>, dist': map<Pos, int>, p: Pos, x: int)
    requires s < |Directions| && Neighbouring(board, dist, origin, q, last, done, u, s, q', dist')
    requires p == Step(u, Directions[s]) && InGrid(p, board.Length0, board.Length1) && board[p.i, p.j] != WALL
    requires x == last + 1 && x < DistOf(dist', p)
    ensures Neighbouring(board, dist, origin, q, last, done, u, s + 1, q' + [Vertex(x, p, Up)], dist'[p := x])
  {
    var q2, d2 := q' + [Vertex(x, p, Up)], dist'[p := x];
    assert p != u;
    assert q2[..|q|] == q;
    assert q2[|q|..] == q'[|q|..] + [Vertex(x, p, Up)];
    forall k | 0 <= k < s + 1
      ensures NextTo(board, d2, u, Directions[k], last)
    {
      if k < s {
        assert NextTo(board, dist', u, Directions[k], last);
      }
    }
  }

  /** Passing over the s-th neighbour extends the loop's invariant by one
      direction. */
  lemma RelaxSkip(board: array2<int>, dist: map<Pos, int>, origin: Pos, q: seq<Vertex>, last: int,
                  done: set<Pos>, u: Pos, s: nat, q': seq<Vertex>, dist': map<Pos, int>, p: Pos)
    requires s < |Directions| && Neighbouring(board, dist, origin, q, last, done, u, s, q', dist')
    requires p == Step(u, Directions[s])
    requires InGrid(p, board.Length0, board.Length1) && board[p.i, p.j] != WALL ==> last + 1 >= DistOf(dist', p)
    ensures Neighbouring(board, dist, origin, q, last, done, u, s + 1, q', dist')
  {
    forall k | 0 <= k < s + 1
      ensures NextTo(board, dist', u, Directions[k], last)
    {
      if k < s {
        assert NextTo(board, dist', u, Directions[k], last);
      }
    }
  }

  /** The cell one step from u in direction d is off the grid, a wall, or
      at most one turn farther than `du`. */
  ghost predicate NextTo(board: array2<int>, dist: map<Pos, int>, u: Pos, d: Dir, du: int)
    reads board
  {
    var p := Step(u, d);
    InGrid(p, board.Length0, board.Length1) && board[p.i, p.j] != WALL ==> DistOf(dist, p) <= du + 1
  }

  /** The neighbours of an expanded vertex are at most one turn farther. */
  ghost predicate Relaxed(board: array2<int>, dist: map<Pos, int>, v: Vertex)
    reads board
  {
    forall d: Dir :: NextTo(board, dist, v.pos, d, v.dist)
  }

  /** The search has closed over its log up to `bound`: every non-wall
      neighbour of a logged cell less than `bound - 1` turns away is itself
      logged, at most one turn farther. */
  ghost predicate Closed(board: array2<int>, order: seq<Vertex>, bound: int)
    reads board
  {
    forall k, d: Dir :: 0 <= k < |order| && order[k].dist + 1 < bound ==>
      var p := Step(order[k].pos, d);
      InGrid(p, board.Length0, board.Length1) && board[p.i, p.j] != WALL ==>
        exists j :: 0 <= j < |order| && order[j].pos == p && order[j].dist <= order[k].dist + 1
  }

  /** When the search stops, its log is closed: up to the distance of the
      interested citizen it stopped at, or everywhere once the queue ran
      dry. */
  lemma CloseOff(board: array2<int>, dist: map<Pos, int>, origin: Pos, q: seq<Vertex>, last: int,
                 visited: set<Pos>, order: seq<Vertex>, bound: int)
    requires Frontier(board, dist, origin, q, last, visited)
    requires visited == Cells(order)
    requires forall k :: 0 <= k < |order| ==> DistOf(dist, order[k].pos) == order[k].dist
    requires forall k :: 0 <= k < |order| && order[k].dist + 1 < bound ==> Relaxed(board, dist, order[k])
    requires (q == [] && bound == INF) || bound == last <= INF
    ensures Closed(board, order, bound)
  {
    forall k, d: Dir | 0 <= k < |order| && order[k].dist + 1 < bound
      ensures var p := Step(order[k].pos, d);
              InGrid(p, board.Length0, board.Length1) && board[p.i, p.j] != WALL ==>
                exists j :: 0 <= j < |order| && order[j].pos == p && order[j].dist <= order[k].dist + 1
    {
      var p := Step(order[k].pos, d);
      if InGrid(p, board.Length0, board.Length1) && board[p.i, p.j] != WALL {
        assert NextTo(board, dist, order[k].pos, d, order[k].dist);
        if p !in visited {
          assert false;
        }
        var j :| 0 <= j < |order| && order[j].pos == p;
        assert order[j].dist == DistOf(dist, p);
      }
    }
  }

  /** A walk from the origin through non-wall cells of the grid. */
  ghost predicate IsPath(board: array2<int>, origin: Pos, path: seq<Pos>)
    reads board
  {
    && |path| >= 1 && path[0] == origin
    && (forall i :: 0 <= i < |path| ==> InGrid(path[i], board.Length0, board.Length1))
    && (forall i :: 0 < i < |path| ==> board[path[i].i, path[i].j] != WALL && Adjacent(path[i - 1], path[i]))
  }

  /** Every walk of fewer than `bound` steps from the origin ends in a
      logged cell, logged no farther than the walk is long. */
  lemma {:induction false} PathLogged(board: array2<int>, origin: Pos, order: seq<Vertex>, bound: int, path: seq<Pos>)
    requires Closed(board, order, bound) && |order| >= 1 && order[0] == Vertex(0, origin, Up)
    requires IsPath(board, origin, path) && |path| <= bound
    ensures exists j :: 0 <= j < |order| && order[j].pos == path[|path| - 1] && order[j].dist <= |path| - 1
  {
    var n := |path|;
    if n == 1 {
      assert order[0].pos == path[0];
    } else {
      var front := path[..n - 1];
      assert IsPath(board, origin, front);
      PathLogged(board, origin, order, bound, front);
      var j :| 0 <= j < |order| && order[j].pos == path[n - 2] && order[j].dist <= n - 2;
      AdjacentIsStep(path[n - 2], path[n - 1]);
      var d: Dir :| Step(path[n - 2], d) == path[n - 1];
      var j' :| 0 <= j' < |order| && order[j'].pos == path[n - 1] && order[j'].dist <= order[j].dist + 1;
    }
  }
}
