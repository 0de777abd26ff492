/** The Eldar player (AIEldar.cc): its per-round state and the round driver.
    The three grids are rebuilt each round; the two bonus maps alternate
    between "this round" and "last round"; the tasks of the citizens fill an
    instruction buffer that is flushed in priority order at the end. */
module Bot {
  import opened Encoding
  import opened Host
  import opened Snapshot
  import opened Queues
  import opened Contention
  import opened Decision
  import opened Approach
  import opened Tasks

  /** The weapon entry `cl` claims in map m: the citizen becomes its closest
      one, at the claimed distance (AIEldar.cc:623-626). */
  function Claimed(m: map<Pos, BonusInfo>, cl: Claim): (r: map<Pos, BonusInfo>)
    ensures cl.pos in r && r[cl.pos].closestIsFriendly && r[cl.pos].closestDist == cl.dist
    ensures r[cl.pos].kind == Lookup(m, cl.pos).kind
    ensures forall p :: p != cl.pos ==> (p in r <==> p in m) && (p in m ==> r[p] == m[p])
  {
    m[cl.pos := Lookup(m, cl.pos).(closestDist := cl.dist, closestIsFriendly := true)]
  }

  /** The move approach_target sends for citizen id after a search with
      outcome res, standing on `here` among the neighbours nb, with `num`
      barricades built (AIEldar.cc:441-452, 584-629). */
  function Intent(w: World, id: int, isWarrior: bool, num: int, res: Exploration,
                  here: Nb, nb: seq<Option<Nb>>): (r: Option<Instr>)
    requires id in w.citizens
    ensures r.Some? ==> r.value.id == id && !r.value.isBuild
  {
    var c := w.citizens[id];
    var v := Verdict(res, isWarrior, w.IsDay(), here.barricade, num, w.params.maxNumBarricades,
                     First(nb, Improve(w.params.barricadeMaxResistance)).Some?,
                     IsDanger(here.enemy, MyWeapon(c.weapon), w.NoDamageWindow()),
                     w.params.lifeLostInAttack >= c.life);
    if v.Some? then Some(Instr(v.value.0, false, id, v.value.1)) else None
  }

  /** The run citizen id makes at night when approach_target found nothing
      (AIEldar.cc:697-718, 734-756). */
  ghost function RunFor(w: World, id: int, weapon: int, floor: int, here: Nb, nb: seq<Option<Nb>>): (r: seq<Instr>)
    requires id in w.citizens && |nb| == |Directions|
    ensures |r| <= 1 && forall x :: x in r ==> x.id == id && !x.isBuild
  {
    var m := NightMove(nb, here.enemy, weapon, floor);
    if m.Some? then [Instr(RunPriority(w.params.lifeLostInAttack >= w.citizens[id].life), false, id, Directions[m.value])]
    else []
  }

  /** Where builder id builds when it does not move (AIEldar.cc:643-669). */
  ghost function BuildFor(w: World, id: int, num: int, nb: seq<Option<Nb>>): (r: seq<Instr>)
    requires |nb| == |Directions|
    ensures |r| <= 1 && forall x :: x in r ==> x.id == id && x.isBuild
  {
    var b := BuildSite(nb, num, w.params.maxNumBarricades, w.params.barricadeMaxResistance);
    if b.Some? then [Instr(BUILD_PRIORITY, true, id, Directions[b.value.0])] else []
  }

  /** That build starts a new barricade. */
  ghost predicate Starts(w: World, num: int, nb: seq<Option<Nb>>)
  {
    var b := BuildSite(nb, num, w.params.maxNumBarricades, w.params.barricadeMaxResistance);
    b.Some? && b.value.1
  }

  /** A loop over the neighbours, in the order of Directions, that stops at
      the first one fitting the rule (AIEldar.cc:374-377, 645-669, 702-707,
      739-744). */
  method FindFirst(nb: seq<Option<Nb>>, rule: Rule) returns (r: Option<nat>)
    ensures r == First(nb, rule)
  {
    for k := 0 to |nb|
      invariant forall j :: 0 <= j < k ==> !Fits(nb[j], rule)
    {
      if Fits(nb[k], rule) {
        return Some(k);
      }
    }
    return None;
  }

  /** The escape loop of the night tasks (AIEldar.cc:709-716, 746-753). */
  method FindEscape(nb: seq<Option<Nb>>, weapon: int, floor: int) returns (best: int, dir: Dir)
    requires |nb| == |Directions|
    ensures var e := Escape(nb, weapon, floor);
            best == e.0 && (e.1.Some? ==> dir == Directions[e.1.value])
  {
    best, dir := floor, Left;
    for k := 0 to |nb|
      invariant var e := Escape(nb[..k], weapon, floor);
                best == e.0 && (e.1.Some? ==> dir == Directions[e.1.value])
    {
      assert nb[..k + 1][..k] == nb[..k];
      var o := nb[k];
      if Route(o, weapon) && o.value.content > best {
        best, dir := o.value.content, Directions[k];
      }
    }
    assert nb[..|nb|] == nb;
  }

  /** The fallback of the night tasks (AIEldar.cc:697-718, 734-756) for
      citizen id on `here` among the neighbours nb: when an enemy next to
      it beats `weapon`, run to a barricade of mine, else to the best
      escape above `floor`. */
  method ChooseRun(w: World, id: int, weapon: int, floor: int, here: Nb, nb: seq<Option<Nb>>)
    returns (instrs: seq<Instr>)
    requires id in w.citizens && |nb| == |Directions|
    ensures instrs == RunFor(w, id, weapon, floor, here, nb)
  {
    instrs := [];
    if -here.enemy > weapon {
      var priority := RUN_PRIORITY;
      if w.params.lifeLostInAttack >= w.citizens[id].life {
        priority := RUN_DEATH_PRIORITY;
      }
      var cover := FindFirst(nb, Cover);
      if cover.Some? {
        return [Instr(priority, false, id, Directions[cover.value])];
      }
      var best, dir := FindEscape(nb, weapon, floor);
      if best != floor {
        instrs := [Instr(priority, false, id, dir)];
      }
    }
  }

  /** The build choice of builder_day_task (AIEldar.cc:643-669) among the
      neighbours nb, with `num` barricades built: improve a barricade of
      mine; else, below the cap, start one on a quiet empty cell, else on
      any empty cell. */
  method ChooseBuild(w: World, id: int, num: int, nb: seq<Option<Nb>>) returns (instrs: seq<Instr>, started: bool)
    requires |nb| == |Directions|
    ensures instrs == BuildFor(w, id, num, nb)
    ensures started == Starts(w, num, nb)
  {
    var improvable := FindFirst(nb, Improve(w.params.barricadeMaxResistance));
    if improvable.Some? {
      return [Instr(BUILD_PRIORITY, true, id, Directions[improvable.value])], false;
    }
    if num >= w.params.maxNumBarricades {
      return [], false;
    }
    var quiet := FindFirst(nb, QuietSite);
    if quiet.Some? {
      return [Instr(BUILD_PRIORITY, true, id, Directions[quiet.value])], true;
    }
    var any := FindFirst(nb, AnySite);
    if any.Some? {
      return [Instr(BUILD_PRIORITY, true, id, Directions[any.value])], true;
    }
    return [], false;
  }

  /** An optional instruction as a sequence of at most one. */
  function Listed(o: Option<Instr>): (r: seq<Instr>)
    ensures |r| <= 1 && (r != [] <==> o.Some?) && (o.Some? ==> r[0] == o.value)
  {
    if o.Some? then [o.value] else []
  }

  /** The buffer grew by at most one instruction, for citizen id, and by a
      build only where one is allowed. */
  predicate AtMostOne(buf0: seq<Instr>, buf: seq<Instr>, id: int, mayBuild: bool)
  {
    buf == buf0 ||
    (|buf| == |buf0| + 1 && buf[..|buf0|] == buf0 && buf[|buf0|].id == id && (buf[|buf0|].isBuild ==> mayBuild))
  }

  /** What one task pushed: at most one instruction, for citizen id, and a
      build only where one is allowed. */
  predicate TaskOut(out: seq<Instr>, id: int, mayBuild: bool)
  {
    |out| <= 1 && forall x :: x in out ==> x.id == id && (x.isBuild ==> mayBuild)
  }

  /** outs[k] is what the task of citizen ids[k] pushed, and intents[k]
      what approach_target chose for it, if anything. */
  predicate Outs(outs: seq<seq<Instr>>, intents: seq<Option<Instr>>, ids: seq<int>, mayBuild: bool)
  {
    && |outs| == |intents| <= |ids|
    && forall k :: 0 <= k < |outs| ==>
         TaskOut(outs[k], ids[k], mayBuild) && (intents[k].Some? ==> outs[k] == [intents[k].value])
  }

  /** One more task's output and choice extend the record. */
  lemma OutsAppend(outs: seq<seq<Instr>>, intents: seq<Option<Instr>>, ids: seq<int>, mayBuild: bool,
                   out: seq<Instr>, intent: Option<Instr>)
    requires Outs(outs, intents, ids, mayBuild) && |outs| < |ids|
    requires TaskOut(out, ids[|outs|], mayBuild) && (intent.Some? ==> out == [intent.value])
    ensures Outs(outs + [out], intents + [intent], ids, mayBuild)
  {
  }

  /** The first k tasks of ids have run: the buffer grew from buf0 to buf
      by added, their outputs in order, each for its own citizen. */
  predicate Record(buf0: seq<Instr>, buf: seq<Instr>, added: seq<Instr>, outs: seq<seq<Instr>>,
                   intents: seq<Option<Instr>>, ids: seq<int>, k: nat, mayBuild: bool)
  {
    && buf == buf0 + added && k <= |ids| && |outs| == k && added == Concat(outs) && Outs(outs, intents, ids, mayBuild)
    && IdBag(added) <= multiset(ids[..k]) && From(added, ids[..k], mayBuild)
  }

  /** The task of citizen ids[k] extends the record by its output. */
  lemma RecordAppend(buf0: seq<Instr>, buf: seq<Instr>, added: seq<Instr>, outs: seq<seq<Instr>>,
                     intents: seq<Option<Instr>>, ids: seq<int>, k: nat, mayBuild: bool,
                     out: seq<Instr>, intent: Option<Instr>)
    requires Record(buf0, buf, added, outs, intents, ids, k, mayBuild) && k < |ids|
    requires TaskOut(out, ids[k], mayBuild) && (intent.Some? ==> out == [intent.value])
    ensures Record(buf0, buf + out, added + out, outs + [out], intents + [intent], ids, k + 1, mayBuild)
  {
    LogAppend(buf0, buf, added, outs, out);
    OutsAppend(outs, intents, ids, mayBuild, out, intent);
    Extend(added, out, ids, k, mayBuild);
  }

  /** The buffer and the concatenated outputs grow by the same output. */
  lemma LogAppend(buf0: seq<Instr>, buf: seq<Instr>, added: seq<Instr>, outs: seq<seq<Instr>>, out: seq<Instr>)
    requires buf == buf0 + added && added == Concat(outs)
    ensures buf + out == buf0 + (added + out) && added + out == Concat(outs + [out])
  {
    assert buf + out == buf0 + (added + out);
    ConcatAppend(outs, out);
  }

  /** Once every task has run, the record covers all of ids. */
  lemma RecordDone(buf0: seq<Instr>, buf: seq<Instr>, added: seq<Instr>, outs: seq<seq<Instr>>,
                   intents: seq<Option<Instr>>, ids: seq<int>, mayBuild: bool)
    requires Record(buf0, buf, added, outs, intents, ids, |ids|, mayBuild)
    ensures buf == buf0 + added && |outs| == |ids| && added == Concat(outs) && Outs(outs, intents, ids, mayBuild)
    ensures IdBag(added) <= multiset(ids) && From(added, ids, mayBuild)
  {
    assert ids[..|ids|] == ids;
  }

  /** The outputs of several tasks, one after the other. */
  function Concat(outs: seq<seq<Instr>>): (r: seq<Instr>)
    ensures |r| <= |outs| || exists k :: 0 <= k < |outs| && |outs[k]| > 1
  {
    if outs == [] then [] else Concat(outs[..|outs| - 1]) + outs[|outs| - 1]
  }

  /** One more task's output goes at the end. */
  lemma ConcatAppend(outs: seq<seq<Instr>>, out: seq<Instr>)
    ensures Concat(outs + [out]) == Concat(outs) + out
  {
    assert (outs + [out])[..|outs|] == outs;
  }

  /** The keys of m are exactly the money and weapon cells, each with its kind. */
  ghost predicate Seeded(w: World, m: map<Pos, BonusInfo>)
    requires w.WellFormed()
  {
    && (forall p :: p in m <==> InGrid(p, w.rows, w.cols) && BonusEntry(w, p).Some?)
    && (forall p :: p in m ==> m[p].kind == BonusEntry(w, p).value.kind)
  }

  /** The bonus map after approach_target commits to a search's target:
      the claimed weapon, if any, marked as mine (AIEldar.cc:622-625). */
  function AfterClaim(m: map<Pos, BonusInfo>, res: Exploration): map<Pos, BonusInfo>
  {
    if res.Searched? && res.best.claim.Some? then Claimed(m, res.best.claim.value) else m
  }

  /** res is an outcome the search of approach_target can reach for
      citizen c over these grids and bonus maps. */
  ghost predicate Searches(w: World, board: array2<int>, enemy: array2<int>, barr: array2<int>,
                           cur: map<Pos, BonusInfo>, prev: map<Pos, BonusInfo>, c: Citizen, isWarrior: bool,
                           res: Exploration)
    reads board, enemy, barr
  {
    exists offers, pops, dist :: Explored(w, board, enemy, barr, cur, prev, c, isWarrior, res, offers, pops, dist)
  }

  /** What a task pushes when approach_target moves nothing: by day a
      builder builds and a warrior does nothing; at night a builder runs
      measured against BUILDER above floor -1, a warrior against its weapon
      above INT_MIN (AIEldar.cc:638-757). */
  ghost function Fallback(w: World, id: int, isWarrior: bool, num: int, here: Nb, nb: seq<Option<Nb>>): seq<Instr>
    requires id in w.citizens && |nb| == |Directions|
  {
    if w.IsDay() then
      if isWarrior then [] else BuildFor(w, id, num, nb)
    else
      RunFor(w, id, if isWarrior then MyWeapon(w.citizens[id].weapon) else BUILDER,
             if isWarrior then INT_MIN else -1, here, nb)
  }

  /** A task's choices over the grids as it saw them: citizen id stands
      on `here` among the neighbours nb, with the bonus map cur and num
      barricades of mine; after a search with outcome res approach_target
      chooses intent, the task pushes out, that move or else its
      fallback, and leaves the bonus map cur' and the count num'
      (AIEldar.cc:586-628, 638-757). */
  ghost predicate Ran(w: World, id: int, isWarrior: bool, here: Nb, nb: seq<Option<Nb>>,
                      cur: map<Pos, BonusInfo>, num: int, res: Exploration, intent: Option<Instr>,
                      out: seq<Instr>, cur': map<Pos, BonusInfo>, num': int)
    requires id in w.citizens && |nb| == |Directions|
  {
    && intent == Intent(w, id, isWarrior, num, res, here, nb)
    && out == (if intent.Some? then [intent.value] else Fallback(w, id, isWarrior, num, here, nb))
    && cur' == (if intent.Some? then AfterClaim(cur, res) else cur)
    && num' == num + if intent.None? && w.IsDay() && !isWarrior && Starts(w, num, nb) then 1 else 0
  }

  /** What the tasks of one list of citizens did, entry k for its k-th
      citizen: heres[k] and nbs[k] are its cell and neighbours, ress[k]
      the outcome of its search, intents[k] the move approach_target
      chose, if any, and outs[k] what the task pushed; curs[k] and nums[k]
      are the bonus map and barricade count the task started from,
      curs[k + 1] and nums[k + 1] those it left. */
  datatype TaskLog = TaskLog(heres: seq<Nb>, nbs: seq<seq<Option<Nb>>>, ress: seq<Exploration>,
                             intents: seq<Option<Instr>>, outs: seq<seq<Instr>>,
                             curs: seq<map<Pos, BonusInfo>>, nums: seq<int>)

  /** The lengths of a log of n tasks. */
  predicate Spans(log: TaskLog, n: nat)
  {
    && |log.heres| == |log.nbs| == |log.ress| == |log.intents| == |log.outs| == n
    && |log.curs| == |log.nums| == n + 1
  }

  /** The log without its last task. */
  function Earlier(log: TaskLog): (r: TaskLog)
    requires |log.ress| > 0 && Spans(log, |log.ress|)
    ensures Spans(r, |log.ress| - 1)
    ensures forall k :: 0 <= k < |r.ress| ==>
              && r.heres[k] == log.heres[k] && r.nbs[k] == log.nbs[k] && r.ress[k] == log.ress[k]
              && r.intents[k] == log.intents[k] && r.outs[k] == log.outs[k]
    ensures forall k :: 0 <= k < |r.curs| ==> r.curs[k] == log.curs[k] && r.nums[k] == log.nums[k]
  {
    var n := |log.ress| - 1;
    TaskLog(log.heres[..n], log.nbs[..n], log.ress[..n], log.intents[..n], log.outs[..n],
            log.curs[..n + 1], log.nums[..n + 1])
  }

  /** The log with one more task. */
  function Later(log: TaskLog, here: Nb, nb: seq<Option<Nb>>, res: Exploration, intent: Option<Instr>,
                 out: seq<Instr>, cur': map<Pos, BonusInfo>, num': int): (r: TaskLog)
    requires Spans(log, |log.ress|)
    ensures Spans(r, |log.ress| + 1) && Earlier(r) == log
    ensures r.outs == log.outs + [out] && r.intents == log.intents + [intent]
    ensures var n := |log.ress|;
            && r.heres[n] == here && r.nbs[n] == nb && r.ress[n] == res && r.intents[n] == intent && r.outs[n] == out
            && r.curs[n + 1] == cur' && r.nums[n + 1] == num'
  {
    var r := TaskLog(log.heres + [here], log.nbs + [nb], log.ress + [res], log.intents + [intent], log.outs + [out],
                     log.curs + [cur'], log.nums + [num']);
    assert Earlier(r) == log;
    r
  }

  /** Entry k of the log is what the task of ids[k] did, from the bonus
      map and count the task before it left. */
  ghost predicate Entry(w: World, ids: seq<int>, isWarrior: bool, log: TaskLog, k: nat)
    requires forall id :: id in ids ==> id in w.citizens
    requires k < |log.ress| <= |ids| && Spans(log, |log.ress|)
  {
    && |log.nbs[k]| == |Directions|
    && Ran(w, ids[k], isWarrior, log.heres[k], log.nbs[k], log.curs[k], log.nums[k], log.ress[k],
           log.intents[k], log.outs[k], log.curs[k + 1], log.nums[k + 1])
  }

  /** The tasks of the first |log.ress| citizens of ids ran one after
      the other, each from the bonus map and count the one before it
      left. */
  ghost predicate Chain(w: World, ids: seq<int>, isWarrior: bool, log: TaskLog)
    requires forall id :: id in ids ==> id in w.citizens
  {
    && |log.ress| <= |ids| && Spans(log, |log.ress|)
    && forall k :: 0 <= k < |log.ress| ==> Entry(w, ids, isWarrior, log, k)
  }

  /** One more task extends the chain. */
  lemma ChainAppend(w: World, ids: seq<int>, isWarrior: bool, log: TaskLog, here: Nb, nb: seq<Option<Nb>>,
                    res: Exploration, intent: Option<Instr>, out: seq<Instr>, cur': map<Pos, BonusInfo>, num': int)
    requires forall id :: id in ids ==> id in w.citizens
    requires Chain(w, ids, isWarrior, log) && |log.ress| < |ids| && |nb| == |Directions|
    requires Ran(w, ids[|log.ress|], isWarrior, here, nb, log.curs[|log.ress|], log.nums[|log.ress|], res, intent, out, cur', num')
    ensures Chain(w, ids, isWarrior, Later(log, here, nb, res, intent, out, cur', num'))
  {
    var r := Later(log, here, nb, res, intent, out, cur', num');
    forall k | 0 <= k < |r.ress|
      ensures Entry(w, ids, isWarrior, r, k)
    {
      if k < |log.ress| {
        assert Entry(w, ids, isWarrior, log, k);
        assert r.curs[k + 1] == log.curs[k + 1] && r.nums[k + 1] == log.nums[k + 1];
      }
    }
  }

  /** The outcome of a search depends only on the three grids, so it still
      describes the state the search started from. q holds the arguments of
      Explored in order. */
  twostate lemma ExploredFrom(q: (World, array2<int>, array2<int>, array2<int>, map<Pos, BonusInfo>, map<Pos, BonusInfo>,
                                   Citizen, bool, Exploration, seq<Offer>, seq<Vertex>, map<Pos, int>))
    requires unchanged(q.1) && unchanged(q.2) && unchanged(q.3)
    requires Explored(q.0, q.1, q.2, q.3, q.4, q.5, q.6, q.7, q.8, q.9, q.10, q.11)
    ensures old(Explored(q.0, q.1, q.2, q.3, q.4, q.5, q.6, q.7, q.8, q.9, q.10, q.11))
  {
  }

  /** A search outcome reachable from the state a task started in is
      still reachable once the task has run, the grids being unchanged. q
      holds the arguments of Searches in order. */
  twostate lemma SearchesNow(q: (World, array2<int>, array2<int>, array2<int>, map<Pos, BonusInfo>, map<Pos, BonusInfo>,
                                  Citizen, bool, Exploration))
    requires unchanged(q.1) && unchanged(q.2) && unchanged(q.3)
    requires old(Searches(q.0, q.1, q.2, q.3, q.4, q.5, q.6, q.7, q.8))
    ensures Searches(q.0, q.1, q.2, q.3, q.4, q.5, q.6, q.7, q.8)
  {
  }

  /** The first k tasks of ids have run, one after the other, from the
      buffer buf0, the bonus map cur0 and the count num0, and left the
      buffer buf, the bonus map cur and the count num. */
  ghost predicate Stage(w: World, ids: seq<int>, isWarrior: bool, k: nat, buf0: seq<Instr>, cur0: map<Pos, BonusInfo>,
                        num0: int, buf: seq<Instr>, cur: map<Pos, BonusInfo>, num: int, added: seq<Instr>, log: TaskLog)
    requires w.WellFormed() && forall id :: id in ids ==> id in w.citizens
  {
    && Record(buf0, buf, added, log.outs, log.intents, ids, k, w.IsDay() && !isWarrior)
    && Chain(w, ids, isWarrior, log) && |log.ress| == k
    && log.curs[0] == cur0 && log.nums[0] == num0
    && cur == log.curs[k] && num == log.nums[k]
    && Capped(num0, num, w.params.maxNumBarricades)
    && (Seeded(w, cur0) ==> Seeded(w, cur))
  }

  /** Task k, run from where the k tasks before it left off, extends the
      stage by one. */
  lemma StageStep(w: World, ids: seq<int>, isWarrior: bool, k: nat, buf0: seq<Instr>, cur0: map<Pos, BonusInfo>,
                  num0: int, buf: seq<Instr>, cur: map<Pos, BonusInfo>, num: int, added: seq<Instr>, log: TaskLog,
                  here: Nb, nb: seq<Option<Nb>>, res: Exploration, intent: Option<Instr>, out: seq<Instr>,
                  cur': map<Pos, BonusInfo>, num': int)
    requires w.WellFormed() && forall id :: id in ids ==> id in w.citizens
    requires k < |ids| && Stage(w, ids, isWarrior, k, buf0, cur0, num0, buf, cur, num, added, log)
    requires |nb| == |Directions| && Ran(w, ids[k], isWarrior, here, nb, cur, num, res, intent, out, cur', num')
    requires TaskOut(out, ids[k], w.IsDay() && !isWarrior) && (intent.Some? ==> out == [intent.value])
    requires Capped(num, num', w.params.maxNumBarricades) && (Seeded(w, cur) ==> Seeded(w, cur'))
    ensures Stage(w, ids, isWarrior, k + 1, buf0, cur0, num0, buf + out, cur', num', added + out,
                  Later(log, here, nb, res, intent, out, cur', num'))
  {
    RecordAppend(buf0, buf, added, log.outs, log.intents, ids, k, w.IsDay() && !isWarrior, out, intent);
    ChainAppend(w, ids, isWarrior, log, here, nb, res, intent, out, cur', num');
  }

  /** A stage spanning all of ids says what the loop over ids did. */
  lemma StageDone(w: World, ids: seq<int>, isWarrior: bool, buf0: seq<Instr>, cur0: map<Pos, BonusInfo>, num0: int,
                  buf: seq<Instr>, cur: map<Pos, BonusInfo>, num: int, added: seq<Instr>, log: TaskLog)
    requires w.WellFormed() && forall id :: id in ids ==> id in w.citizens
    requires Stage(w, ids, isWarrior, |ids|, buf0, cur0, num0, buf, cur, num, added, log)
    ensures buf == buf0 + added
    ensures |log.outs| == |ids| && added == Concat(log.outs) && Outs(log.outs, log.intents, ids, w.IsDay() && !isWarrior)
    ensures IdBag(added) <= multiset(ids) && From(added, ids, w.IsDay() && !isWarrior)
    ensures Chain(w, ids, isWarrior, log) && |log.ress| == |ids|
    ensures log.curs[0] == cur0 && log.nums[0] == num0
    ensures cur == log.curs[|ids|] && num == log.nums[|ids|]
    ensures Capped(num0, num, w.params.maxNumBarricades)
    ensures Seeded(w, cur0) ==> Seeded(w, cur)
  {
    RecordDone(buf0, buf, added, log.outs, log.intents, ids, w.IsDay() && !isWarrior);
  }

  /** Grids built from the world show every enemy's life, which is
      positive (AIEldar.cc:319-332): the search over them never steps at a
      negative cost. */
  lemma BuiltLive(w: World, board: array2<int>, enemy: array2<int>)
    requires Board(w, board) && enemy.Length0 == w.rows && enemy.Length1 == w.cols
    requires forall i, j :: 0 <= i < w.rows && 0 <= j < w.cols ==> enemy[i, j] == EnemyGrid(w, Pos(i, j))
    ensures LiveEnemies(w, board, enemy)
  {
    forall i, j | 0 <= i < w.rows && 0 <= j < w.cols && board[i, j] <= ENEMY_BUILDER
      ensures enemy[i, j] >= 0
    {
      assert Classified(w, board, i, j);
      EnemyGridMeaning(w, Pos(i, j));
    }
  }

  /** What the flush sends is a permutation of what was pushed, so it
      names the same citizens and builds only what was built. */
  lemma SentAsPushed(w: World, sent: seq<Instr>, pushed: seq<Instr>)
    requires multiset(sent) == multiset(pushed)
    ensures forall x :: x in sent && x.isBuild ==> x in pushed
  {
    forall x | x in sent && x.isBuild
      ensures x in pushed
    {
      assert x in multiset(sent);
    }
  }

  /** Claiming a weapon keeps the keys and kinds of a seeded map. */
  lemma ClaimKeepsSeeded(w: World, board: array2<int>, enemy: array2<int>, barr: array2<int>,
                          m: map<Pos, BonusInfo>, prev: map<Pos, BonusInfo>, c: Citizen, isWarrior: bool,
                          res: Exploration, offers: seq<Offer>, pops: seq<Vertex>, dist: map<Pos, int>)
    requires Explored(w, board, enemy, barr, m, prev, c, isWarrior, res, offers, pops, dist)
    ensures Seeded(w, m) ==> Seeded(w, AfterClaim(m, res))
  {
    if res.Searched? && res.best.claim.Some? {
      ExploredClaim(w, board, enemy, barr, m, prev, c, isWarrior, res, offers, pops, dist);
      if Seeded(w, m) {
        assert res.best.claim.value.pos in m;
      }
    }
  }

  /** The barricade count only grows, and beyond n0 only up to the cap. */
  predicate Capped(n0: int, n: int, maxNum: int)
  {
    n0 <= n && (n == n0 || n <= maxNum)
  }

  /** Every instruction of s is for a citizen of ids, and a build only
      where builds are allowed. */
  predicate From(s: seq<Instr>, ids: seq<int>, mayBuild: bool)
  {
    forall x :: x in s ==> x.id in ids && (x.isBuild ==> mayBuild)
  }

  class Eldar {
    const rows: int
    const cols: int
    /** Board: the content code of every cell. */
    const board: array2<int>
    /** Board_Enemy: an enemy's life on its own cell, else the code of the
        strongest enemy next to the cell, else 0. */
    const enemyGrid: array2<int>
    /** Board_Barricades: resistance of my barricade, minus that of an
        enemy's, 0 for none. */
    const barricades: array2<int>
    var numBarricades: int
    /** instruction_buffer, as the sequence of pushed instructions. */
    var buffer: seq<Instr>
    var bonusOdd: map<Pos, BonusInfo>
    var bonusEven: map<Pos, BonusInfo>
    /** bonus_distances points to bonusOdd; bonus_distances_prev to the other. */
    var currentIsOdd: bool

    predicate Valid()
      reads this
    {
      && 0 < rows && 0 < cols
      && board.Length0 == rows && board.Length1 == cols
      && enemyGrid.Length0 == rows && enemyGrid.Length1 == cols
      && barricades.Length0 == rows && barricades.Length1 == cols
      && board != enemyGrid && board != barricades && enemyGrid != barricades
    }

    /** initialize (AIEldar.cc:195-202): the grids get the board's size. */
    constructor (rows: int, cols: int)
      requires 0 < rows && 0 < cols
      ensures Valid() && this.rows == rows && this.cols == cols
      ensures buffer == [] && bonusOdd == map[] && bonusEven == map[]
    {
      this.rows, this.cols := rows, cols;
      board := new int[rows, cols];
      enemyGrid := new int[rows, cols];
      barricades := new int[rows, cols];
      numBarricades := 0;
      buffer := [];
      bonusOdd, bonusEven := map[], map[];
      currentIsOdd := false;
    }

    /** The grids have the board's size. */
    predicate Shaped()
    {
      && board.Length0 == rows && board.Length1 == cols
      && enemyGrid.Length0 == rows && enemyGrid.Length1 == cols
      && barricades.Length0 == rows && barricades.Length1 == cols
    }

    /** The player is set up for world w. */
    predicate Ready(w: World)
      reads this
    {
      Valid() && w.WellFormed() && w.rows == rows && w.cols == cols
    }

    /** *bonus_distances */
    function Current(): map<Pos, BonusInfo>
      reads this`currentIsOdd, this`bonusOdd, this`bonusEven
    {
      if currentIsOdd then bonusOdd else bonusEven
    }

    /** *bonus_distances_prev */
    function Previous(): map<Pos, BonusInfo>
      reads this`currentIsOdd, this`bonusOdd, this`bonusEven
    {
      if currentIsOdd then bonusEven else bonusOdd
    }

    /** The grids describe world w (AIEldar.cc:289-344). */
    ghost predicate Built(w: World)
      reads this, board, enemyGrid, barricades
    {
      && Valid() && w.WellFormed() && w.rows == rows && w.cols == cols
      && Scene(w, board, enemyGrid, barricades)
      && (forall i, j :: 0 <= i < rows && 0 <= j < cols ==>
            && enemyGrid[i, j] == EnemyGrid(w, Pos(i, j))
            && barricades[i, j] == BarricadeValue(w, Pos(i, j)))
    }

    /** The cells before `cur` in row-major order have been classified. */
    ghost predicate FilledBefore(w: World, cur: Pos)
      requires Ready(w)
      reads this, board, barricades
    {
      forall i, j :: 0 <= i < rows && 0 <= j < cols && Before(Pos(i, j), cur) ==>
        board[i, j] == Classify(w, Pos(i, j)) && barricades[i, j] == BarricadeValue(w, Pos(i, j))
    }

    /** Board_Enemy as it stands when the scan reaches `cur`. */
    ghost predicate DangerBefore(w: World, cur: Pos)
      requires Ready(w)
      reads this, enemyGrid
    {
      forall i, j :: 0 <= i < rows && 0 <= j < cols ==> enemyGrid[i, j] == DangerAt(w, Pos(i, j), cur)
    }

    /** The bonus map as it stands when the scan reaches `cur`. */
    ghost predicate BonusBefore(w: World, m: map<Pos, BonusInfo>, cur: Pos)
      requires w.WellFormed()
    {
      && (forall p :: p in m <==> InGrid(p, w.rows, w.cols) && Before(p, cur) && BonusEntry(w, p).Some?)
      && (forall p :: p in m ==> m[p] == BonusEntry(w, p).value)
    }

    /** build_board (AIEldar.cc:289-350): classify every cell, spread the
        enemies' danger, seed the current bonus map with the money and
        weapon cells, and run compute_closest on each of them. */
    method BuildBoard(w: World) returns (ghost orders: map<Pos, seq<Vertex>>)
      requires Ready(w)
      modifies this, board, enemyGrid, barricades
      ensures Built(w) && Seeded(w, Current())
      ensures forall p :: p in Current() ==>
                p in orders && Closest(w, board, p, BonusEntry(w, p).value, Current()[p], orders[p])
      ensures Previous() == old(Previous()) && currentIsOdd == old(currentIsOdd)
      ensures buffer == old(buffer) && numBarricades == old(numBarricades)
    {
      var seeds := Scan(w);
      var end := Pos(rows, 0);
      assert Built(w) by {
        forall i, j | 0 <= i < rows && 0 <= j < cols
          ensures board[i, j] == Classify(w, Pos(i, j)) && barricades[i, j] == BarricadeValue(w, Pos(i, j))
          ensures enemyGrid[i, j] == EnemyGrid(w, Pos(i, j))
        {
          assert Before(Pos(i, j), end);
        }
      }
      forall p | p in seeds
        ensures InGrid(p, rows, cols) && seeds[p] == BonusEntry(w, p).value
      {
      }
      var m;
      m, orders := ComputeAll(w, seeds);
      if currentIsOdd {
        bonusOdd := m;
      } else {
        bonusEven := m;
      }
    }

    /** The first two loops of build_board (AIEldar.cc:293-344). */
    method Scan(w: World) returns (seeds: map<Pos, BonusInfo>)
      requires Ready(w)
      modifies board, enemyGrid, barricades
      ensures FilledBefore(w, Pos(rows, 0)) && DangerBefore(w, Pos(rows, 0)) && BonusBefore(w, seeds, Pos(rows, 0))
    {
      ClearDanger();
      ScanStart(w);
      seeds := map[];
      for i := 0 to rows
        invariant FilledBefore(w, Pos(i, 0)) && DangerBefore(w, Pos(i, 0)) && BonusBefore(w, seeds, Pos(i, 0))
      {
        seeds := ScanRow(w, i, seeds);
      }
    }

    /** Row i of the scan. */
    method ScanRow(w: World, i: int, seeds: map<Pos, BonusInfo>) returns (seeds': map<Pos, BonusInfo>)
      requires Ready(w) && 0 <= i < rows
      requires FilledBefore(w, Pos(i, 0)) && DangerBefore(w, Pos(i, 0)) && BonusBefore(w, seeds, Pos(i, 0))
      modifies board, enemyGrid, barricades
      ensures FilledBefore(w, Pos(i + 1, 0)) && DangerBefore(w, Pos(i + 1, 0)) && BonusBefore(w, seeds', Pos(i + 1, 0))
    {
      seeds' := seeds;
      for j := 0 to cols
        invariant FilledBefore(w, Pos(i, j)) && DangerBefore(w, Pos(i, j)) && BonusBefore(w, seeds', Pos(i, j))
      {
        seeds' := ScanCell(w, i, j, seeds');
      }
      RowEnd(w, i, seeds');
    }

    /** The body of the first loop of build_board for cell (i, j)
        (AIEldar.cc:296-332). */
    method ScanCell(w: World, i: int, j: int, seeds: map<Pos, BonusInfo>) returns (seeds': map<Pos, BonusInfo>)
      requires Ready(w) && 0 <= i < rows && 0 <= j < cols
      requires FilledBefore(w, Pos(i, j)) && DangerBefore(w, Pos(i, j)) && BonusBefore(w, seeds, Pos(i, j))
      modifies board, enemyGrid, barricades
      ensures FilledBefore(w, Pos(i, j + 1)) && DangerBefore(w, Pos(i, j + 1)) && BonusBefore(w, seeds', Pos(i, j + 1))
    {
      FillCell(w, i, j);
      SpreadDanger(w, i, j);
      seeds' := SeedCell(w, Pos(i, j), seeds);
    }

    /** Before the scan no cell is classified, Board_Enemy is all 0 and
        the bonus map is empty. */
    lemma ScanStart(w: World)
      requires Ready(w)
      requires forall i, j :: 0 <= i < rows && 0 <= j < cols ==> enemyGrid[i, j] == 0
      ensures FilledBefore(w, Pos(0, 0)) && DangerBefore(w, Pos(0, 0)) && BonusBefore(w, map[], Pos(0, 0))
    {
      forall a, b | 0 <= a < rows && 0 <= b < cols
        ensures enemyGrid[a, b] == DangerAt(w, Pos(a, b), Pos(0, 0))
      {
      }
    }

    /** The end of row i is the start of row i + 1. */
    lemma RowEnd(w: World, i: int, seeds: map<Pos, BonusInfo>)
      requires Ready(w) && 0 <= i < rows
      requires FilledBefore(w, Pos(i, cols)) && DangerBefore(w, Pos(i, cols)) && BonusBefore(w, seeds, Pos(i, cols))
      ensures FilledBefore(w, Pos(i + 1, 0)) && DangerBefore(w, Pos(i + 1, 0)) && BonusBefore(w, seeds, Pos(i + 1, 0))
    {
      forall a, b | 0 <= a < rows && 0 <= b < cols
        ensures enemyGrid[a, b] == DangerAt(w, Pos(a, b), Pos(i + 1, 0))
      {
        DangerRowEnd(w, Pos(a, b), i);
      }
      forall p | InGrid(p, rows, cols)
        ensures Before(p, Pos(i, cols)) == Before(p, Pos(i + 1, 0))
      {
      }
    }

    /** The first loop of build_board (AIEldar.cc:293-295). */
    method ClearDanger()
      requires Valid()
      modifies enemyGrid
      ensures forall i, j :: 0 <= i < rows && 0 <= j < cols ==> enemyGrid[i, j] == 0
    {
      for i := 0 to rows
        invariant forall a, b :: 0 <= a < i && 0 <= b < cols ==> enemyGrid[a, b] == 0
      {
        for j := 0 to cols
          invariant forall a, b :: 0 <= a < i && 0 <= b < cols ==> enemyGrid[a, b] == 0
          invariant forall b :: 0 <= b < j ==> enemyGrid[i, b] == 0
        {
          enemyGrid[i, j] := 0;
        }
      }
    }

    /** The content and barricade of cell (i, j) (AIEldar.cc:300-342). */
    method FillCell(w: World, i: int, j: int)
      requires Ready(w)
      requires 0 <= i < rows && 0 <= j < cols && FilledBefore(w, Pos(i, j))
      modifies board, barricades
      ensures FilledBefore(w, Pos(i, j + 1))
    {
      board[i, j] := Classify(w, Pos(i, j));
      barricades[i, j] := BarricadeValue(w, Pos(i, j));
    }

    /** The danger an enemy on (i, j) spreads (AIEldar.cc:319-332). */
    method SpreadDanger(w: World, i: int, j: int)
      requires Ready(w)
      requires 0 <= i < rows && 0 <= j < cols && DangerBefore(w, Pos(i, j))
      modifies enemyGrid
      ensures DangerBefore(w, Pos(i, j + 1))
    {
      var c := Pos(i, j);
      var code := Classify(w, c);
      if code <= ENEMY_BUILDER {
        MarkEnemy(i, j, LifeAt(w, c), code);
      }
      var next := Pos(i, j + 1);
      forall a, b | 0 <= a < rows && 0 <= b < cols
        ensures enemyGrid[a, b] == DangerAt(w, Pos(a, b), next)
      {
        DangerNext(w, Pos(a, b), c, next, old(enemyGrid[a, b]), enemyGrid[a, b]);
      }
    }

    /** The insertions into the bonus map (AIEldar.cc:303-314). */
    method SeedCell(w: World, c: Pos, seeds: map<Pos, BonusInfo>) returns (seeds': map<Pos, BonusInfo>)
      requires w.WellFormed() && InGrid(c, w.rows, w.cols) && BonusBefore(w, seeds, c)
      ensures BonusBefore(w, seeds', Pos(c.i, c.j + 1))
    {
      var entry := BonusEntry(w, c);
      seeds' := if entry.Some? then seeds[c := entry.value] else seeds;
    }

    /** An enemy on (i, j): its life on its own cell, update_danger
        (AIEldar.cc:282-286) on each neighbour (AIEldar.cc:326-332). */
    method MarkEnemy(i: int, j: int, life: int, code: int)
      requires Valid() && 0 <= i < rows && 0 <= j < cols
      modifies enemyGrid
      ensures forall a, b :: 0 <= a < rows && 0 <= b < cols ==>
                enemyGrid[a, b] == Spread(old(enemyGrid[a, b]), Pos(a, b), Pos(i, j), life, code)
    {
      enemyGrid[i, j] := life;
      if i - 1 >= 0 { UpdateDanger(i - 1, j, code); }
      if i + 1 < rows { UpdateDanger(i + 1, j, code); }
      if j - 1 >= 0 { UpdateDanger(i, j - 1, code); }
      if j + 1 < cols { UpdateDanger(i, j + 1, code); }
    }

    /** update_danger (AIEldar.cc:282-286) on cell (i, j). */
    method UpdateDanger(i: int, j: int, e: int)
      requires Valid() && 0 <= i < rows && 0 <= j < cols
      modifies enemyGrid
      ensures enemyGrid[i, j] == MergeDanger(old(enemyGrid[i, j]), e)
      ensures forall a, b :: 0 <= a < rows && 0 <= b < cols && (a != i || b != j) ==>
                enemyGrid[a, b] == old(enemyGrid[a, b])
    {
      if enemyGrid[i, j] > 0 || enemyGrid[i, j] <= e {
        return;
      }
      enemyGrid[i, j] := e;
    }

    /** The last loop of build_board (AIEldar.cc:347-349): compute_closest
        for every seeded cell; each entry is computed independently of the
        others, so the order of the keys does not matter. */
    method ComputeAll(w: World, seeds: map<Pos, BonusInfo>)
      returns (m: map<Pos, BonusInfo>, ghost orders: map<Pos, seq<Vertex>>)
      requires Ready(w)
      requires forall p :: p in seeds ==> InGrid(p, rows, cols)
      ensures m.Keys == seeds.Keys
      ensures forall p :: p in m ==> p in orders && Closest(w, board, p, seeds[p], m[p], orders[p])
    {
      m, orders := seeds, map[];
      var todo := seeds.Keys;
      while todo != {}
        invariant todo <= seeds.Keys && m.Keys == seeds.Keys
        invariant forall p :: p in seeds && p !in todo ==> p in orders && Closest(w, board, p, seeds[p], m[p], orders[p])
        decreases todo
      {
        var p :| p in todo;
        var r, order := ComputeClosest(w, board, p, seeds[p]);
        m, orders := m[p := r], orders[p := order];
        todo := todo - {p};
      }
    }

    /** What the three grids hold at cell p. */
    function Here(p: Pos): (r: Nb)
      requires Shaped() && InGrid(p, rows, cols)
      reads board, enemyGrid, barricades
    {
      Nb(board[p.i, p.j], enemyGrid[p.i, p.j], barricades[p.i, p.j])
    }

    /** What the grids hold at q, or None off the board. */
    function NbAt(q: Pos): (r: Option<Nb>)
      requires Shaped()
      reads board, enemyGrid, barricades
      ensures r.Some? <==> InGrid(q, rows, cols)
    {
      if InGrid(q, rows, cols) then Some(Here(q)) else None
    }

    /** The four neighbours of p, in the order of Directions. */
    function Around(p: Pos): (r: seq<Option<Nb>>)
      requires Shaped()
      reads board, enemyGrid, barricades
      ensures |r| == |Directions| && forall k :: 0 <= k < |r| ==> r[k] == NbAt(Step(p, Directions[k]))
    {
      [NbAt(Step(p, Up)), NbAt(Step(p, Down)), NbAt(Step(p, Left)), NbAt(Step(p, Right))]
    }

    /** Citizen id stood on `here` among the neighbours nb, and its search,
        from the bonus map cur, can reach the outcome res. */
    ghost predicate Saw(w: World, prev: map<Pos, BonusInfo>, id: int, isWarrior: bool,
                        cur: map<Pos, BonusInfo>, res: Exploration, here: Nb, nb: seq<Option<Nb>>)
      requires Shaped() && id in w.citizens && InGrid(w.citizens[id].pos, rows, cols)
      reads board, enemyGrid, barricades
    {
      && here == Here(w.citizens[id].pos) && nb == Around(w.citizens[id].pos)
      && Searches(w, board, enemyGrid, barricades, cur, prev, w.citizens[id], isWarrior, res)
    }

    /** Every task of the log saw the grids as they are. */
    ghost predicate Looked(w: World, prev: map<Pos, BonusInfo>, ids: seq<int>, isWarrior: bool, log: TaskLog)
      requires Shaped() && forall id :: id in ids ==> id in w.citizens && InGrid(w.citizens[id].pos, rows, cols)
      reads board, enemyGrid, barricades
    {
      && |log.ress| <= |ids| && Spans(log, |log.ress|)
      && forall k {:trigger Saw(w, prev, ids[k], isWarrior, log.curs[k], log.ress[k], log.heres[k], log.nbs[k])} ::
           0 <= k < |log.ress| ==> Saw(w, prev, ids[k], isWarrior, log.curs[k], log.ress[k], log.heres[k], log.nbs[k])
    }

    /** A log whose tasks saw the grids, extended by a task n that sees
        them too, saw them throughout. */
    lemma LookedGrow(w: World, prev: map<Pos, BonusInfo>, ids: seq<int>, isWarrior: bool, n: nat, log: TaskLog,
                     log': TaskLog, here: Nb, nb: seq<Option<Nb>>, res: Exploration)
      requires Shaped() && forall id :: id in ids ==> id in w.citizens && InGrid(w.citizens[id].pos, rows, cols)
      requires n == |log.ress| < |ids| && Looked(w, prev, ids, isWarrior, log)
      requires |log'.ress| == n + 1 && Spans(log', n + 1) && Earlier(log') == log
      requires log'.heres[n] == here && log'.nbs[n] == nb && log'.ress[n] == res
      requires Saw(w, prev, ids[n], isWarrior, log.curs[n], res, here, nb)
      ensures Looked(w, prev, ids, isWarrior, log')
    {
      forall k | 0 <= k < n + 1
        ensures Saw(w, prev, ids[k], isWarrior, log'.curs[k], log'.ress[k], log'.heres[k], log'.nbs[k])
      {
        if k < n {
          assert Saw(w, prev, ids[k], isWarrior, log.curs[k], log.ress[k], log.heres[k], log.nbs[k]);
        }
      }
    }

    /** The grids unchanged since L, what the tasks of a log saw at L they
        see now. q holds the arguments of Looked. */
    twostate lemma LookedKeep(q: (World, map<Pos, BonusInfo>, seq<int>, bool, TaskLog))
      requires Shaped() && forall id :: id in q.2 ==> id in q.0.citizens && InGrid(q.0.citizens[id].pos, rows, cols)
      requires unchanged(board) && unchanged(enemyGrid) && unchanged(barricades)
      requires old(Looked(q.0, q.1, q.2, q.3, q.4))
      ensures Looked(q.0, q.1, q.2, q.3, q.4)
    {
    }

    /** approach_target (AIEldar.cc:413-630) for citizen id. */
    method ApproachTarget(w: World, id: int, isWarrior: bool)
      returns (moved: bool, ghost res: Exploration, ghost offers: seq<Offer>, ghost pops: seq<Vertex>,
               ghost dist: map<Pos, int>, ghost intent: Option<Instr>)
      requires Ready(w) && Scene(w, board, enemyGrid, barricades) && LiveEnemies(w, board, enemyGrid) && id in w.citizens && InGrid(w.citizens[id].pos, rows, cols)
      modifies this
      ensures old(Explored(w, board, enemyGrid, barricades, Current(), Previous(), w.citizens[id], isWarrior,
                           res, offers, pops, dist))
      ensures intent == Intent(w, id, isWarrior, old(numBarricades), res,
                               old(Here(w.citizens[id].pos)), old(Around(w.citizens[id].pos)))
      ensures moved == intent.Some? && buffer == old(buffer) + Listed(intent)
      ensures Current() == if moved then AfterClaim(old(Current()), res) else old(Current())
      ensures Seeded(w, old(Current())) ==> Seeded(w, Current())
      ensures Previous() == old(Previous()) && currentIsOdd == old(currentIsOdd) && numBarricades == old(numBarricades)
    {
      var c := w.citizens[id];
      var here, nb := Here(c.pos), Around(c.pos);
      var cur, prev := Current(), Previous();
      var r;
      r, offers, pops, dist := Explore(w, board, enemyGrid, barricades, cur, prev, c, isWarrior);
      res := r;
      ExploredFrom((w, board, enemyGrid, barricades, cur, prev, c, isWarrior, r, offers, pops, dist));
      ClaimKeepsSeeded(w, board, enemyGrid, barricades, cur, prev, c, isWarrior, r, offers, pops, dist);
      moved, intent := Settle(w, id, isWarrior, r, here, nb);
    }

    /** What approach_target does with the outcome res of its search
        (AIEldar.cc:586-628): the verdict decides whether a move is pushed
        and a weapon claimed. */
    method Settle(w: World, id: int, isWarrior: bool, res: Exploration, here: Nb, nb: seq<Option<Nb>>)
      returns (moved: bool, ghost intent: Option<Instr>)
      requires Ready(w) && id in w.citizens
      requires Seeded(w, Current()) ==> Seeded(w, AfterClaim(Current(), res))
      modifies this
      ensures intent == Intent(w, id, isWarrior, old(numBarricades), res, here, nb)
      ensures moved == intent.Some? && buffer == old(buffer) + Listed(intent)
      ensures Current() == if moved then AfterClaim(old(Current()), res) else old(Current())
      ensures Seeded(w, old(Current())) ==> Seeded(w, Current())
      ensures Previous() == old(Previous()) && currentIsOdd == old(currentIsOdd) && numBarricades == old(numBarricades)
    {
      var instr := Intent(w, id, isWarrior, numBarricades, res, here, nb);
      intent := instr;
      moved := instr.Some?;
      Commit(instr, res);
    }

    /** The end of approach_target (AIEldar.cc:622-628): the weapon claimed,
        if any, is marked as mine in the current bonus map, and the
        instruction is pushed. */
    method Commit(intent: Option<Instr>, res: Exploration)
      modifies this
      ensures buffer == old(buffer) + Listed(intent)
      ensures Current() == if intent.Some? then AfterClaim(old(Current()), res) else old(Current())
      ensures Previous() == old(Previous()) && currentIsOdd == old(currentIsOdd) && numBarricades == old(numBarricades)
    {
      if intent.Some? {
        if res.Searched? && res.best.claim.Some? {
          var m := Claimed(Current(), res.best.claim.value);
          if currentIsOdd {
            bonusOdd := m;
          } else {
            bonusEven := m;
          }
        }
        buffer := buffer + [intent.value];
      }
    }

    /** Push what a fallback task chose (its _build or _move call), and
        count a new barricade when it starts one (AIEldar.cc:658-659, 665-666). */
    method Append(instrs: seq<Instr>, started: bool)
      modifies this
      ensures buffer == old(buffer) + instrs
      ensures numBarricades == old(numBarricades) + if started then 1 else 0
      ensures Current() == old(Current()) && Previous() == old(Previous()) && currentIsOdd == old(currentIsOdd)
    {
      buffer := buffer + instrs;
      if started {
        numBarricades := numBarricades + 1;
      }
    }

    /** builder_day_task (AIEldar.cc:638-670): the search, else a build
        next to the builder. */
    method BuilderDayTask(w: World, id: int) returns (ghost moved: bool, ghost res: Exploration, ghost intent: Option<Instr>)
      requires Ready(w) && Scene(w, board, enemyGrid, barricades) && LiveEnemies(w, board, enemyGrid) && id in w.citizens && InGrid(w.citizens[id].pos, rows, cols)
      modifies this
      ensures old(Searches(w, board, enemyGrid, barricades, Current(), Previous(), w.citizens[id], false, res))
      ensures intent == Intent(w, id, false, old(numBarricades), res,
                               old(Here(w.citizens[id].pos)), old(Around(w.citizens[id].pos)))
      ensures moved == intent.Some?
      ensures buffer == old(buffer) + if moved then Listed(intent)
                                      else BuildFor(w, id, old(numBarricades), old(Around(w.citizens[id].pos)))
      ensures numBarricades == old(numBarricades) +
                if !moved && Starts(w, old(numBarricades), old(Around(w.citizens[id].pos))) then 1 else 0
      ensures AtMostOne(old(buffer), buffer, id, true)
      ensures Capped(old(numBarricades), numBarricades, w.params.maxNumBarricades)
      ensures Current() == if moved then AfterClaim(old(Current()), res) else old(Current())
      ensures Seeded(w, old(Current())) ==> Seeded(w, Current())
      ensures Previous() == old(Previous()) && currentIsOdd == old(currentIsOdd)
    {
      var nb := Around(w.citizens[id].pos);
      var approached;
      approached, res, intent := TryApproach(w, id, false);
      moved := approached;
      if !approached {
        assert buffer == old(buffer) + [];
        Build(w, id, nb);
      }
    }

    /** The fallback of builder_day_task (AIEldar.cc:642-669): push the
        build BuildSite chooses among the neighbours nb, and count a
        barricade it starts. */
    method Build(w: World, id: int, nb: seq<Option<Nb>>)
      requires |nb| == |Directions|
      modifies this
      ensures buffer == old(buffer) + BuildFor(w, id, old(numBarricades), nb)
      ensures numBarricades == old(numBarricades) + if Starts(w, old(numBarricades), nb) then 1 else 0
      ensures Capped(old(numBarricades), numBarricades, w.params.maxNumBarricades)
      ensures Current() == old(Current()) && Previous() == old(Previous()) && currentIsOdd == old(currentIsOdd)
    {
      var instrs, started := ChooseBuild(w, id, numBarricades, nb);
      Append(instrs, started);
    }

    /** approach_target as the tasks see it: what it pushes and claims,
        without the account of the search. */
    method TryApproach(w: World, id: int, isWarrior: bool) returns (moved: bool, ghost res: Exploration, ghost intent: Option<Instr>)
      requires Ready(w) && Scene(w, board, enemyGrid, barricades) && LiveEnemies(w, board, enemyGrid) && id in w.citizens && InGrid(w.citizens[id].pos, rows, cols)
      modifies this
      ensures old(Searches(w, board, enemyGrid, barricades, Current(), Previous(), w.citizens[id], isWarrior, res))
      ensures intent == Intent(w, id, isWarrior, old(numBarricades), res,
                               old(Here(w.citizens[id].pos)), old(Around(w.citizens[id].pos)))
      ensures moved == intent.Some? && buffer == old(buffer) + Listed(intent)
      ensures Current() == if moved then AfterClaim(old(Current()), res) else old(Current())
      ensures Seeded(w, old(Current())) ==> Seeded(w, Current())
      ensures Previous() == old(Previous()) && currentIsOdd == old(currentIsOdd) && numBarricades == old(numBarricades)
    {
      ghost var offers, pops, dist;
      moved, res, offers, pops, dist, intent := ApproachTarget(w, id, isWarrior);
    }

    /** warrior_day_task (AIEldar.cc:673-676): only the search. */
    method WarriorDayTask(w: World, id: int) returns (ghost moved: bool, ghost res: Exploration, ghost intent: Option<Instr>)
      requires Ready(w) && Scene(w, board, enemyGrid, barricades) && LiveEnemies(w, board, enemyGrid) && id in w.citizens && InGrid(w.citizens[id].pos, rows, cols)
      modifies this
      ensures old(Searches(w, board, enemyGrid, barricades, Current(), Previous(), w.citizens[id], true, res))
      ensures intent == Intent(w, id, true, old(numBarricades), res,
                               old(Here(w.citizens[id].pos)), old(Around(w.citizens[id].pos)))
      ensures moved == intent.Some? && buffer == old(buffer) + Listed(intent)
      ensures AtMostOne(old(buffer), buffer, id, false)
      ensures Current() == if moved then AfterClaim(old(Current()), res) else old(Current())
      ensures Seeded(w, old(Current())) ==> Seeded(w, Current())
      ensures Previous() == old(Previous()) && currentIsOdd == old(currentIsOdd) && numBarricades == old(numBarricades)
    {
      moved, res, intent := TryApproach(w, id, true);
    }

    /** builder_night_task (AIEldar.cc:687-720) and warrior_night_task
        (AIEldar.cc:723-757): a builder weighs its danger against BUILDER
        and accepts escapes above -1, a warrior against its weapon and
        accepts any escape. */
    method NightTask(w: World, id: int, isWarrior: bool) returns (ghost moved: bool, ghost res: Exploration, ghost intent: Option<Instr>)
      requires Ready(w) && Scene(w, board, enemyGrid, barricades) && LiveEnemies(w, board, enemyGrid) && id in w.citizens && InGrid(w.citizens[id].pos, rows, cols)
      modifies this
      ensures old(Searches(w, board, enemyGrid, barricades, Current(), Previous(), w.citizens[id], isWarrior, res))
      ensures intent == Intent(w, id, isWarrior, old(numBarricades), res,
                               old(Here(w.citizens[id].pos)), old(Around(w.citizens[id].pos)))
      ensures moved == intent.Some?
      ensures buffer == old(buffer) +
                if moved then Listed(intent)
                else RunFor(w, id, if isWarrior then MyWeapon(w.citizens[id].weapon) else BUILDER,
                            if isWarrior then INT_MIN else -1, old(Here(w.citizens[id].pos)), old(Around(w.citizens[id].pos)))
      ensures AtMostOne(old(buffer), buffer, id, false)
      ensures Current() == if moved then AfterClaim(old(Current()), res) else old(Current())
      ensures Seeded(w, old(Current())) ==> Seeded(w, Current())
      ensures Previous() == old(Previous()) && currentIsOdd == old(currentIsOdd) && numBarricades == old(numBarricades)
    {
      var c := w.citizens[id];
      var here, nb := Here(c.pos), Around(c.pos);
      var approached;
      approached, res, intent := TryApproach(w, id, isWarrior);
      moved := approached;
      if !approached {
        assert buffer == old(buffer) + [];
        var weapon := if isWarrior then MyWeapon(c.weapon) else BUILDER;
        var floor := if isWarrior then INT_MIN else -1;
        Run(w, id, weapon, floor, here, nb);
      }
    }

    /** The fallback of the night tasks (AIEldar.cc:693-719, 729-755): push
        the run NightMove chooses, if any. */
    method Run(w: World, id: int, weapon: int, floor: int, here: Nb, nb: seq<Option<Nb>>)
      requires id in w.citizens && |nb| == |Directions|
      modifies this
      ensures buffer == old(buffer) + RunFor(w, id, weapon, floor, here, nb)
      ensures Current() == old(Current()) && Previous() == old(Previous())
      ensures currentIsOdd == old(currentIsOdd) && numBarricades == old(numBarricades)
    {
      var instrs := ChooseRun(w, id, weapon, floor, here, nb);
      Append(instrs, false);
    }

    /** The loops of play over one list of citizens (AIEldar.cc:780-786):
        by day builder_day_task or warrior_day_task, at night the night
        task, for each id in turn, each from the bonus map and barricade
        count the one before it left. `added` is what the tasks pushed. */
    method RunTasks(w: World, ids: seq<int>, isWarrior: bool) returns (ghost added: seq<Instr>, ghost log: TaskLog)
      requires Ready(w) && Scene(w, board, enemyGrid, barricades) && LiveEnemies(w, board, enemyGrid)
      requires forall id :: id in ids ==> id in w.citizens && InGrid(w.citizens[id].pos, rows, cols)
      modifies this
      ensures buffer == old(buffer) + added
      ensures |log.outs| == |ids| && added == Concat(log.outs) && Outs(log.outs, log.intents, ids, w.IsDay() && !isWarrior)
      ensures IdBag(added) <= multiset(ids) && From(added, ids, w.IsDay() && !isWarrior)
      ensures Chain(w, ids, isWarrior, log) && |log.ress| == |ids|
      ensures Looked(w, Previous(), ids, isWarrior, log)
      ensures log.curs[0] == old(Current()) && log.nums[0] == old(numBarricades)
      ensures Current() == log.curs[|ids|] && numBarricades == log.nums[|ids|]
      ensures Capped(old(numBarricades), numBarricades, w.params.maxNumBarricades)
      ensures Seeded(w, old(Current())) ==> Seeded(w, Current())
      ensures Previous() == old(Previous()) && currentIsOdd == old(currentIsOdd)
    {
      added, log := [], TaskLog([], [], [], [], [], [Current()], [numBarricades]);
      for k := 0 to |ids|
        invariant Progress(w, ids, isWarrior, k, old(buffer), old(Current()), old(numBarricades), added, log)
        invariant Previous() == old(Previous()) && currentIsOdd == old(currentIsOdd)
      {
        added, log := RunNext(w, ids, isWarrior, k, old(buffer), old(Current()), old(numBarricades), added, log);
      }
      StageDone(w, ids, isWarrior, old(buffer), old(Current()), old(numBarricades), buffer, Current(), numBarricades,
                added, log);
    }

    /** The first k tasks of ids have run, one after the other, from the
        buffer buf0, the bonus map cur0 and the count num0, and saw the
        grids as they are. */
    ghost predicate Progress(w: World, ids: seq<int>, isWarrior: bool, k: nat, buf0: seq<Instr>,
                             cur0: map<Pos, BonusInfo>, num0: int, added: seq<Instr>, log: TaskLog)
      requires Ready(w) && forall id :: id in ids ==> id in w.citizens && InGrid(w.citizens[id].pos, rows, cols)
      reads this, board, enemyGrid, barricades
    {
      && Stage(w, ids, isWarrior, k, buf0, cur0, num0, buffer, Current(), numBarricades, added, log)
      && Looked(w, Previous(), ids, isWarrior, log)
    }

    /** One turn of the loops of play (AIEldar.cc:780-786): the task of
        ids[k], from where the k tasks before it left off. */
    method RunNext(w: World, ids: seq<int>, isWarrior: bool, k: nat, ghost buf0: seq<Instr>,
                   ghost cur0: map<Pos, BonusInfo>, ghost num0: int, ghost added: seq<Instr>, ghost log: TaskLog)
      returns (ghost added': seq<Instr>, ghost log': TaskLog)
      requires Ready(w) && Scene(w, board, enemyGrid, barricades) && LiveEnemies(w, board, enemyGrid)
      requires forall id :: id in ids ==> id in w.citizens && InGrid(w.citizens[id].pos, rows, cols)
      requires k < |ids| && Progress(w, ids, isWarrior, k, buf0, cur0, num0, added, log)
      modifies this
      ensures Progress(w, ids, isWarrior, k + 1, buf0, cur0, num0, added', log')
      ensures Previous() == old(Previous()) && currentIsOdd == old(currentIsOdd)
    {
      ghost var here, nb, res;
      added', log', here, nb, res := RunStep(w, ids, isWarrior, k, buf0, cur0, num0, added, log);
      LookedKeep((w, Previous(), ids, isWarrior, log));
      LookedGrow(w, Previous(), ids, isWarrior, k, log, log', here, nb, res);
    }

    /** The task of ids[k], from where the k tasks before it left off:
        here, nb and res are what it saw and the outcome of its search. */
    method RunStep(w: World, ids: seq<int>, isWarrior: bool, k: nat, ghost buf0: seq<Instr>,
                   ghost cur0: map<Pos, BonusInfo>, ghost num0: int, ghost added: seq<Instr>, ghost log: TaskLog)
      returns (ghost added': seq<Instr>, ghost log': TaskLog, ghost here: Nb, ghost nb: seq<Option<Nb>>,
               ghost res: Exploration)
      requires Ready(w) && Scene(w, board, enemyGrid, barricades) && LiveEnemies(w, board, enemyGrid)
      requires forall id :: id in ids ==> id in w.citizens && InGrid(w.citizens[id].pos, rows, cols)
      requires k < |ids| && Stage(w, ids, isWarrior, k, buf0, cur0, num0, buffer, Current(), numBarricades, added, log)
      modifies this
      ensures Stage(w, ids, isWarrior, k + 1, buf0, cur0, num0, buffer, Current(), numBarricades, added', log')
      ensures |log'.ress| == k + 1 && Spans(log', k + 1) && Earlier(log') == log
      ensures log'.heres[k] == here && log'.nbs[k] == nb && log'.ress[k] == res
      ensures Saw(w, Previous(), ids[k], isWarrior, log.curs[k], res, here, nb)
      ensures Previous() == old(Previous()) && currentIsOdd == old(currentIsOdd)
    {
      ghost var id := ids[k];
      assert id in ids;
      assert id in w.citizens;
      ghost var pos := w.citizens[id].pos;
      ghost var buf := buffer;
      here, nb := Here(pos), Around(pos);
      ghost var out, intent;
      out, res, intent := RunTask(w, ids[k], isWarrior);
      StageStep(w, ids, isWarrior, k, buf0, cur0, num0, buf, old(Current()), old(numBarricades), added, log,
                here, nb, res, intent, out, Current(), numBarricades);
      added' := added + out;
      log' := Later(log, here, nb, res, intent, out, Current(), numBarricades);
    }

    /** The task of citizen id for this round, by day or at night: what it
        pushed, and the instruction approach_target chose, if any. */
    method RunTask(w: World, id: int, isWarrior: bool)
      returns (ghost out: seq<Instr>, ghost res: Exploration, ghost intent: Option<Instr>)
      requires Ready(w) && Scene(w, board, enemyGrid, barricades) && LiveEnemies(w, board, enemyGrid) && id in w.citizens && InGrid(w.citizens[id].pos, rows, cols)
      modifies this
      ensures old(Searches(w, board, enemyGrid, barricades, Current(), Previous(), w.citizens[id], isWarrior, res))
      ensures intent == Intent(w, id, isWarrior, old(numBarricades), res,
                               old(Here(w.citizens[id].pos)), old(Around(w.citizens[id].pos)))
      ensures out == if intent.Some? then [intent.value]
                     else Fallback(w, id, isWarrior, old(numBarricades), old(Here(w.citizens[id].pos)),
                                   old(Around(w.citizens[id].pos)))
      ensures Saw(w, Previous(), id, isWarrior, old(Current()), res, old(Here(w.citizens[id].pos)), old(Around(w.citizens[id].pos)))
      ensures Ran(w, id, isWarrior, old(Here(w.citizens[id].pos)), old(Around(w.citizens[id].pos)),
                  old(Current()), old(numBarricades), res, intent, out, Current(), numBarricades)
      ensures buffer == old(buffer) + out
      ensures TaskOut(out, id, w.IsDay() && !isWarrior) && (intent.Some? ==> out == [intent.value])
      ensures Capped(old(numBarricades), numBarricades, w.params.maxNumBarricades)
      ensures Seeded(w, old(Current())) ==> Seeded(w, Current())
      ensures Previous() == old(Previous()) && currentIsOdd == old(currentIsOdd)
    {
      ghost var c := w.citizens[id];
      ghost var cur, prev := Current(), Previous();
      ghost var here, nb := Here(c.pos), Around(c.pos);
      ghost var before := buffer;
      ghost var moved;
      if w.IsDay() {
        if isWarrior {
          moved, res, intent := WarriorDayTask(w, id);
        } else {
          moved, res, intent := BuilderDayTask(w, id);
        }
      } else {
        moved, res, intent := NightTask(w, id, isWarrior);
      }
      Served(before, buffer, id, w.IsDay() && !isWarrior, intent);
      out := buffer[|before|..];
      SearchesNow((w, board, enemyGrid, barricades, cur, prev, c, isWarrior, res));
      assert Here(c.pos) == here && Around(c.pos) == nb;
    }

    /** The start of play (AIEldar.cc:765-774): this round's bonus map is
        the one of its parity, the other one keeps last round's distances;
        the board is rebuilt, compute_closest run from every bonus cell,
        and my barricades counted. */
    method NewRound(w: World) returns (ghost orders: map<Pos, seq<Vertex>>)
      requires Valid() && w.WellFormed() && w.rows == rows && w.cols == cols
      modifies this, board, enemyGrid, barricades
      ensures Built(w) && Seeded(w, Current())
      ensures forall p :: p in Current() ==>
                p in orders && Closest(w, board, p, BonusEntry(w, p).value, Current()[p], orders[p])
      ensures currentIsOdd == (w.round % 2 == 1)
      ensures Previous() == if w.round % 2 == 1 then old(bonusEven) else old(bonusOdd)
      ensures buffer == old(buffer) && numBarricades == w.ownBarricades
    {
      currentIsOdd := w.round % 2 == 1;
      orders := BuildBoard(w);
      ghost var seeded := Current();
      numBarricades := w.ownBarricades;
      assert Current() == seeded;
    }

    /** play (AIEldar.cc:761-795), from the second round on: pick this
        round's bonus map by parity, build the board, count my barricades,
        run every citizen's task and send the buffered instructions. The
        builders' tasks start from the freshly computed bonus map, each
        later task from the map and count the one before it left. */
    method Play(w: World)
      returns (sent: seq<Instr>, ghost builders: TaskLog, ghost warriors: TaskLog, ghost orders: map<Pos, seq<Vertex>>)
      requires Valid() && w.WellFormed() && w.Placed() && w.rows == rows && w.cols == cols
      requires buffer == []
      modifies this, board, enemyGrid, barricades
      ensures Built(w)
      ensures currentIsOdd == (w.round % 2 == 1)
      ensures Previous() == if w.round % 2 == 1 then old(bonusEven) else old(bonusOdd)
      ensures Chain(w, w.builders, false, builders) && |builders.ress| == |w.builders|
      ensures Chain(w, w.warriors, true, warriors) && |warriors.ress| == |w.warriors|
      ensures Looked(w, Previous(), w.builders, false, builders) && Looked(w, Previous(), w.warriors, true, warriors)
      ensures Seeded(w, builders.curs[0]) && builders.nums[0] == w.ownBarricades
      ensures forall p :: p in builders.curs[0] ==>
                p in orders && Closest(w, board, p, BonusEntry(w, p).value, builders.curs[0][p], orders[p])
      ensures warriors.curs[0] == builders.curs[|w.builders|] && warriors.nums[0] == builders.nums[|w.builders|]
      ensures Current() == warriors.curs[|w.warriors|] && numBarricades == warriors.nums[|w.warriors|]
      ensures Seeded(w, Current())
      ensures buffer == [] && DispatchOrdered(sent)
      ensures forall k :: 0 <= k < |w.builders| ==> TaskOut(builders.outs[k], w.builders[k], w.IsDay())
      ensures forall k :: 0 <= k < |w.warriors| ==> TaskOut(warriors.outs[k], w.warriors[k], false)
      ensures multiset(sent) == multiset(Concat(builders.outs) + Concat(warriors.outs))
      ensures IdBag(sent) <= multiset(w.builders) + multiset(w.warriors)
      ensures forall x :: x in sent && x.isBuild ==> w.IsDay() && x.id in w.builders
      ensures Capped(w.ownBarricades, numBarricades, w.params.maxNumBarricades)
    {
      orders := NewRound(w);
      BuiltLive(w, board, enemyGrid);
      sent, builders, warriors := RunAndFlush(w);
    }

    /** The rest of play (AIEldar.cc:778-794): every builder's task, then
        every warrior's, on an empty buffer, and the flush. */
    method RunAndFlush(w: World) returns (sent: seq<Instr>, ghost builders: TaskLog, ghost warriors: TaskLog)
      requires Ready(w) && Scene(w, board, enemyGrid, barricades) && LiveEnemies(w, board, enemyGrid) && w.Placed()
      requires buffer == []
      modifies this
      ensures Chain(w, w.builders, false, builders) && |builders.ress| == |w.builders|
      ensures Chain(w, w.warriors, true, warriors) && |warriors.ress| == |w.warriors|
      ensures Looked(w, Previous(), w.builders, false, builders) && Looked(w, Previous(), w.warriors, true, warriors)
      ensures builders.curs[0] == old(Current()) && builders.nums[0] == old(numBarricades)
      ensures warriors.curs[0] == builders.curs[|w.builders|] && warriors.nums[0] == builders.nums[|w.builders|]
      ensures Current() == warriors.curs[|w.warriors|] && numBarricades == warriors.nums[|w.warriors|]
      ensures buffer == [] && DispatchOrdered(sent)
      ensures forall k :: 0 <= k < |w.builders| ==> TaskOut(builders.outs[k], w.builders[k], w.IsDay())
      ensures forall k :: 0 <= k < |w.warriors| ==> TaskOut(warriors.outs[k], w.warriors[k], false)
      ensures multiset(sent) == multiset(Concat(builders.outs) + Concat(warriors.outs))
      ensures IdBag(sent) <= multiset(w.builders) + multiset(w.warriors)
      ensures forall x :: x in sent && x.isBuild ==> w.IsDay() && x.id in w.builders
      ensures Capped(old(numBarricades), numBarricades, w.params.maxNumBarricades)
      ensures Seeded(w, old(Current())) ==> Seeded(w, Current())
      ensures Previous() == old(Previous()) && currentIsOdd == old(currentIsOdd)
    {
      ghost var byBuilders, byWarriors;
      byBuilders, byWarriors, builders, warriors := RunBoth(w);
      assert buffer == byBuilders + byWarriors;
      sent := FlushAfter(w, builders, warriors);
      SentAsPushed(w, sent, byBuilders + byWarriors);
    }

    /** Every builder's task, then every warrior's (AIEldar.cc:780-786):
        byBuilders and byWarriors are what each list pushed. */
    method RunBoth(w: World)
      returns (ghost byBuilders: seq<Instr>, ghost byWarriors: seq<Instr>, ghost builders: TaskLog, ghost warriors: TaskLog)
      requires Ready(w) && Scene(w, board, enemyGrid, barricades) && LiveEnemies(w, board, enemyGrid) && w.Placed()
      modifies this
      ensures buffer == old(buffer) + byBuilders + byWarriors
      ensures Chain(w, w.builders, false, builders) && |builders.ress| == |w.builders|
      ensures Chain(w, w.warriors, true, warriors) && |warriors.ress| == |w.warriors|
      ensures Looked(w, Previous(), w.builders, false, builders) && Looked(w, Previous(), w.warriors, true, warriors)
      ensures builders.curs[0] == old(Current()) && builders.nums[0] == old(numBarricades)
      ensures warriors.curs[0] == builders.curs[|w.builders|] && warriors.nums[0] == builders.nums[|w.builders|]
      ensures Current() == warriors.curs[|w.warriors|] && numBarricades == warriors.nums[|w.warriors|]
      ensures byBuilders == Concat(builders.outs) && Outs(builders.outs, builders.intents, w.builders, w.IsDay())
      ensures byWarriors == Concat(warriors.outs) && Outs(warriors.outs, warriors.intents, w.warriors, false)
      ensures forall k :: 0 <= k < |w.builders| ==> TaskOut(builders.outs[k], w.builders[k], w.IsDay())
      ensures forall k :: 0 <= k < |w.warriors| ==> TaskOut(warriors.outs[k], w.warriors[k], false)
      ensures forall x :: x in byBuilders + byWarriors && x.isBuild ==> w.IsDay() && x.id in w.builders
      ensures IdBag(byBuilders + byWarriors) <= multiset(w.builders) + multiset(w.warriors)
      ensures Capped(old(numBarricades), numBarricades, w.params.maxNumBarricades)
      ensures Seeded(w, old(Current())) ==> Seeded(w, Current())
      ensures Previous() == old(Previous()) && currentIsOdd == old(currentIsOdd)
    {
      byBuilders, builders := RunTasks(w, w.builders, false);
      label Built:
      byWarriors, warriors := RunTasks(w, w.warriors, true);
      LookedKeep@Built((w, Previous(), w.builders, false, builders));
      IdBagAppend(byBuilders, byWarriors);
      assert From(byBuilders, w.builders, w.IsDay()) && From(byWarriors, w.warriors, false);
    }

    /** The flush, after the tasks of both lists: what they saw of the
        grids, the flush leaves in place. */
    method FlushAfter(ghost w: World, ghost builders: TaskLog, ghost warriors: TaskLog) returns (sent: seq<Instr>)
      requires Ready(w) && w.Placed()
      requires Looked(w, Previous(), w.builders, false, builders) && Looked(w, Previous(), w.warriors, true, warriors)
      modifies this
      ensures buffer == [] && DispatchOrdered(sent)
      ensures multiset(sent) == multiset(old(buffer)) && IdBag(sent) == IdBag(old(buffer))
      ensures Current() == old(Current()) && Previous() == old(Previous())
      ensures currentIsOdd == old(currentIsOdd) && numBarricades == old(numBarricades)
      ensures Looked(w, Previous(), w.builders, false, builders) && Looked(w, Previous(), w.warriors, true, warriors)
    {
      sent := Flush();
      LookedKeep((w, Previous(), w.builders, false, builders));
      LookedKeep((w, Previous(), w.warriors, true, warriors));
    }

    /** The flush at the end of play (AIEldar.cc:789-794): `sent` lists
        the build and move calls in the order they are made. */
    method Flush() returns (sent: seq<Instr>)
      modifies this
      ensures buffer == [] && DispatchOrdered(sent)
      ensures multiset(sent) == multiset(old(buffer)) && IdBag(sent) == IdBag(old(buffer))
      ensures Current() == old(Current()) && Previous() == old(Previous())
      ensures currentIsOdd == old(currentIsOdd) && numBarricades == old(numBarricades)
    {
      sent := Dispatch(buffer);
      buffer := [];
    }
  }

  /** DangerStep on one cell's values before and after the scan of c. */
  lemma DangerNext(w: World, p: Pos, c: Pos, next: Pos, before: int, after: int)
    requires w.WellFormed() && InGrid(p, w.rows, w.cols) && InGrid(c, w.rows, w.cols) && next == Pos(c.i, c.j + 1)
    requires before == DangerAt(w, p, c)
    requires after == if IsEnemy(w, c) then Spread(before, p, c, LifeAt(w, c), Classify(w, c)) else before
    ensures after == DangerAt(w, p, next)
  {
    DangerStep(w, p, c);
  }

  /** What a task pushed is at most one instruction for its citizen, and
      the instruction approach_target chose whenever it chose one. */
  lemma Served(before: seq<Instr>, after: seq<Instr>, id: int, mayBuild: bool, intent: Option<Instr>)
    requires AtMostOne(before, after, id, mayBuild)
    requires intent.Some? ==> after == before + [intent.value]
    ensures |before| <= |after| && after == before + after[|before|..] && TaskOut(after[|before|..], id, mayBuild)
    ensures intent.Some? ==> after[|before|..] == [intent.value]
  {
    if after != before {
      assert after[|before|..] == [after[|before|]];
    }
  }

  /** One more task served: the instructions added grow by what the task
      for citizen ids[k] pushed. */
  lemma Extend(added: seq<Instr>, out: seq<Instr>, ids: seq<int>, k: nat, mayBuild: bool)
    requires k < |ids|
    requires IdBag(added) <= multiset(ids[..k]) && From(added, ids[..k], mayBuild)
    requires TaskOut(out, ids[k], mayBuild)
    ensures IdBag(added + out) <= multiset(ids[..k + 1]) && From(added + out, ids[..k + 1], mayBuild)
  {
    assert ids[..k + 1] == ids[..k] + [ids[k]];
    if out != [] {
      assert out == [out[0]];
      IdBagAppend(added, out);
      assert IdBag(out) == multiset{ids[k]} by {
        assert out[1..] == [];
      }
    } else {
      assert added + out == added;
    }
  }

  /** When the host lists each citizen once, at most one instruction is
      sent per citizen. */
  lemma {:induction false} OneEach(s: seq<Instr>, ids: seq<int>)
    requires IdBag(s) <= multiset(ids)
    requires forall a, b :: 0 <= a < b < |ids| ==> ids[a] != ids[b]
    ensures OnePerCitizen(s)
  {
    forall id
      ensures multiset(ids)[id] <= 1
    {
      AtMostOnce(ids, id);
    }
  }

  lemma {:induction false} AtMostOnce(ids: seq<int>, id: int)
    requires forall a, b :: 0 <= a < b < |ids| ==> ids[a] != ids[b]
    ensures multiset(ids)[id] <= 1
  {
    if ids != [] {
      assert ids == [ids[0]] + ids[1..];
      AtMostOnce(ids[1..], id);
      if ids[0] == id {
        assert id !in ids[1..];
      }
    }
  }
}
