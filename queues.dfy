/** The two priority queues of AIEldar.cc, modelled as sequences with
    top extraction: the Dijkstra frontier of Vertex values and the
    instruction buffer of Instr values. std::priority_queue pops a maximum
    of operator<; among several maxima the model pops the first one. */
module Queues {
  import opened Encoding

  /** Vertex (AIEldar.cc:102-111). */
  datatype Vertex = Vertex(dist: int, pos: Pos, dir: Dir)

  /* USHRT_MAX: the distance of a cell not reached yet. */
  const INF := 65535

  /** A distance table of the searches (a local matrix initialised to
      USHRT_MAX): a cell without an entry is not reached yet. */
  function DistOf(dist: map<Pos, int>, p: Pos): int
  {
    if p in dist then dist[p] else INF
  }

  /** Vertex::operator< is reversed: a vertex is less attractive when farther. */
  predicate VertexLess(a: Vertex, b: Vertex)
  {
    a.dist > b.dist
  }

  /** Index of Q.top(): an element no other element beats under VertexLess,
      that is, one of least distance; the first such. */
  function TopVertex(q: seq<Vertex>): (k: nat)
    requires |q| > 0
    ensures k < |q|
    ensures forall j :: 0 <= j < |q| ==> !VertexLess(q[k], q[j])
    ensures forall j :: 0 <= j < k ==> VertexLess(q[j], q[k])
  {
    if |q| == 1 then 0
    else
      var t := TopVertex(q[1..]) + 1;
      if VertexLess(q[0], q[t]) then t else 0
  }

  /** The frontier's top has the least distance in it. */
  lemma TopVertexIsNearest(q: seq<Vertex>)
    requires |q| > 0
    ensures forall v :: v in q ==> q[TopVertex(q)].dist <= v.dist
  {
    var k := TopVertex(q);
    forall v | v in q
      ensures q[k].dist <= v.dist
    {
      var j :| 0 <= j < |q| && q[j] == v;
      assert !VertexLess(q[k], q[j]);
    }
  }

  /** The cells of a log of vertices. */
  ghost function Cells(order: seq<Vertex>): set<Pos>
  {
    set k | 0 <= k < |order| :: order[k].pos
  }

  lemma CellsAppend(order: seq<Vertex>, v: Vertex)
    ensures Cells(order + [v]) == Cells(order) + {v.pos}
  {
    var o := order + [v];
    assert o[|order|].pos == v.pos;
    forall p | p in Cells(order) ensures p in Cells(o) {
      var k :| 0 <= k < |order| && order[k].pos == p;
      assert o[k] == order[k];
    }
  }

  /** The queue after popping element k. */
  function RemoveAt<T>(q: seq<T>, k: nat): (r: seq<T>)
    requires k < |q|
    ensures |r| == |q| - 1
    ensures forall x :: x in q && x != q[k] ==> x in r
    ensures forall x :: x in r ==> x in q
  {
    assert q == q[..k] + [q[k]] + q[k + 1..];
    q[..k] + q[k + 1..]
  }

  /** Popping element k leaves the other elements, with their multiplicities. */
  lemma RemoveAtMultiset<T>(q: seq<T>, k: nat)
    requires k < |q|
    ensures multiset(RemoveAt(q, k)) + multiset{q[k]} == multiset(q)
  {
    assert q == q[..k] + [q[k]] + q[k + 1..];
  }

  /** Instr (AIEldar.cc:78-88). */
  datatype Instr = Instr(priority: int, isBuild: bool, id: int, dir: Dir)

  /** Priorities of AIEldar.cc:91-95. */
  const NOT_IMPORTANT := -1
  const BUILD_PRIORITY := 0
  const RUN_PRIORITY := 15
  const RUN_DEATH_PRIORITY := 20
  const VERY_HIGH_PRIORITY := 500

  /** Instr::operator<: by priority, equal priorities by id. */
  predicate InstrLess(a: Instr, b: Instr)
  {
    if a.priority == b.priority then a.id < b.id else a.priority < b.priority
  }

  /** InstrLess is a strict order that decides every pair differing in
      priority or id. */
  lemma InstrLessStrictTotal(a: Instr, b: Instr, c: Instr)
    ensures !InstrLess(a, a)
    ensures InstrLess(a, b) ==> !InstrLess(b, a)
    ensures InstrLess(a, b) && InstrLess(b, c) ==> InstrLess(a, c)
    ensures (a.priority, a.id) != (b.priority, b.id) ==> InstrLess(a, b) || InstrLess(b, a)
  {
  }

  /** Index of instruction_buffer.top(): a maximum under InstrLess, the first such. */
  function TopInstr(q: seq<Instr>): (k: nat)
    requires |q| > 0
    ensures k < |q|
    ensures forall j :: 0 <= j < |q| ==> !InstrLess(q[k], q[j])
  {
    if |q| == 1 then 0
    else
      var t := TopInstr(q[1..]) + 1;
      if InstrLess(q[0], q[t]) then t else 0
  }

  /** Dispatch order: no instruction is beaten by one sent after it, so
      priorities never increase and equal priorities go by decreasing id. */
  ghost predicate DispatchOrdered(s: seq<Instr>)
  {
    forall a, b :: 0 <= a < b < |s| ==> !InstrLess(s[a], s[b])
  }

  lemma DispatchOrderedMeaning(s: seq<Instr>, a: nat, b: nat)
    requires DispatchOrdered(s) && a < b < |s|
    ensures s[a].priority >= s[b].priority
    ensures s[a].priority == s[b].priority ==> s[a].id >= s[b].id
  {
    assert !InstrLess(s[a], s[b]);
  }

  /** The multiset of citizen ids of a sequence of instructions. */
  function IdBag(s: seq<Instr>): multiset<int>
  {
    if s == [] then multiset{} else multiset{s[0].id} + IdBag(s[1..])
  }

  lemma {:induction false} IdBagAppend(a: seq<Instr>, b: seq<Instr>)
    ensures IdBag(a + b) == IdBag(a) + IdBag(b)
  {
    if a == [] {
      assert a + b == b;
    } else {
      assert (a + b)[0] == a[0];
      assert (a + b)[1..] == a[1..] + b;
      IdBagAppend(a[1..], b);
    }
  }

  /** Popping element k removes exactly its id from the bag. */
  lemma {:induction false} IdBagRemoveAt(q: seq<Instr>, k: nat)
    requires k < |q|
    ensures IdBag(q) == IdBag(RemoveAt(q, k)) + multiset{q[k].id}
  {
    if k > 0 {
      var r := RemoveAt(q, k);
      assert r[0] == q[0];
      assert r[1..] == RemoveAt(q[1..], k - 1);
      IdBagRemoveAt(q[1..], k - 1);
    } else {
      assert RemoveAt(q, k) == q[1..];
    }
  }

  /** At most one instruction per citizen. */
  ghost predicate OnePerCitizen(s: seq<Instr>)
  {
    forall id :: IdBag(s)[id] <= 1
  }

  /** The state of the flush loop: `sent` and `rest` together hold the
      pushed instructions, `sent` is in dispatch order, and nothing still
      queued beats anything already sent. */
  ghost predicate Draining(q: seq<Instr>, sent: seq<Instr>, rest: seq<Instr>)
  {
    && multiset(sent) + multiset(rest) == multiset(q)
    && IdBag(sent) + IdBag(rest) == IdBag(q)
    && DispatchOrdered(sent)
    && forall a, b :: a in sent && b in rest ==> !InstrLess(a, b)
  }

  /** Sending the top of the queue keeps the flush invariant. */
  lemma DrainStep(q: seq<Instr>, sent: seq<Instr>, rest: seq<Instr>)
    requires Draining(q, sent, rest) && rest != []
    ensures var t := TopInstr(rest);
            Draining(q, sent + [rest[t]], RemoveAt(rest, t))
  {
    var t := TopInstr(rest);
    MovedBags(q, sent, rest, t);
    SentInOrder(sent, rest, t);
    TopStaysAhead(sent, rest, t);
  }

  /** Moving rest[t] to the end of sent keeps both bags. */
  lemma MovedBags(q: seq<Instr>, sent: seq<Instr>, rest: seq<Instr>, t: nat)
    requires t < |rest|
    requires multiset(sent) + multiset(rest) == multiset(q) && IdBag(sent) + IdBag(rest) == IdBag(q)
    ensures multiset(sent + [rest[t]]) + multiset(RemoveAt(rest, t)) == multiset(q)
    ensures IdBag(sent + [rest[t]]) + IdBag(RemoveAt(rest, t)) == IdBag(q)
  {
    MovedMultiset(sent, rest, t);
    MovedIdBag(sent, rest, t);
  }

  lemma MovedMultiset(sent: seq<Instr>, rest: seq<Instr>, t: nat)
    requires t < |rest|
    ensures multiset(sent + [rest[t]]) + multiset(RemoveAt(rest, t)) == multiset(sent) + multiset(rest)
  {
    calc {
      multiset(sent + [rest[t]]) + multiset(RemoveAt(rest, t));
      multiset(sent) + (multiset(RemoveAt(rest, t)) + multiset{rest[t]});
      { RemoveAtMultiset(rest, t); }
      multiset(sent) + multiset(rest);
    }
  }

  lemma MovedIdBag(sent: seq<Instr>, rest: seq<Instr>, t: nat)
    requires t < |rest|
    ensures IdBag(sent + [rest[t]]) + IdBag(RemoveAt(rest, t)) == IdBag(sent) + IdBag(rest)
  {
    var com := rest[t];
    calc {
      IdBag(sent + [com]) + IdBag(RemoveAt(rest, t));
      { IdBagAppend(sent, [com]); assert [com][1..] == []; }
      IdBag(sent) + (IdBag(RemoveAt(rest, t)) + multiset{com.id});
      { IdBagRemoveAt(rest, t); }
      IdBag(sent) + IdBag(rest);
    }
  }

  lemma SentInOrder(sent: seq<Instr>, rest: seq<Instr>, t: nat)
    requires DispatchOrdered(sent) && t < |rest| && t == TopInstr(rest)
    requires forall a, b :: a in sent && b in rest ==> !InstrLess(a, b)
    ensures DispatchOrdered(sent + [rest[t]])
  {
    var sent' := sent + [rest[t]];
    forall a, b | 0 <= a < b < |sent'|
      ensures !InstrLess(sent'[a], sent'[b])
    {
      if b == |sent| {
        assert sent'[a] in sent;
      } else {
        assert sent'[a] == sent[a] && sent'[b] == sent[b];
      }
    }
  }

  lemma TopStaysAhead(sent: seq<Instr>, rest: seq<Instr>, t: nat)
    requires t < |rest| && t == TopInstr(rest)
    requires forall a, b :: a in sent && b in rest ==> !InstrLess(a, b)
    ensures forall a, b :: a in sent + [rest[t]] && b in RemoveAt(rest, t) ==> !InstrLess(a, b)
  {
    forall a, b | a in sent + [rest[t]] && b in RemoveAt(rest, t)
      ensures !InstrLess(a, b)
    {
      assert b in rest;
    }
  }

  /** The flush of instruction_buffer (AIEldar.cc:789-794): pop the top
      until the queue is empty. `sent` lists the instructions as they are
      sent. */
  method Dispatch(q: seq<Instr>) returns (sent: seq<Instr>)
    ensures DispatchOrdered(sent)
    ensures multiset(sent) == multiset(q) && IdBag(sent) == IdBag(q)
  {
    sent := [];
    var rest := q;
    while rest != []
      invariant Draining(q, sent, rest)
      decreases |rest|
    {
      var t := TopInstr(rest);
      DrainStep(q, sent, rest);
      sent := sent + [rest[t]];
      rest := RemoveAt(rest, t);
    }
  }
}
