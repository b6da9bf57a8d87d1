/**
 * Map generation (MapGenerator.Generate): three choice nodes for the next step of a run.
 * A non-boss tier draws three of five pool nodes without replacement and makes sure one
 * of them is a fight; the boss tier offers three boss nodes. The random indices are inputs.
 */
module MapGen {
  datatype NodeType = Encounter | Rest | Event | Boss

  /** MapNode without its sprite. */
  datatype MapNode = MapNode(kind: NodeType, title: string, description: string)

  const EncounterNode := MapNode(Encounter, "Encounter", "Fight!")
  const RestNode := MapNode(Rest, "Rest", "+30 HP")
  const EventNode := MapNode(Event, "Event", "50/50 Heal/DMG")
  const ShortEventNode := MapNode(Event, "Event", "50/50")
  const BossNode := MapNode(Boss, "Boss", "Final Test")

  /** The non-boss pool, in its listed order. */
  const Pool := [EncounterNode, RestNode, EventNode, EncounterNode, ShortEventNode]

  /** The nodes of the pool that are not fights. */
  const NonFights := [RestNode, EventNode, ShortEventNode]

  /** RandomSide: a side node picked by an index in [0, 3). */
  function RandomSide(r: nat): (n: MapNode)
    ensures n.kind != Boss
    ensures n.kind == Encounter <==> r == 0
  {
    if r == 0 then EncounterNode else if r == 1 then RestNode else EventNode
  }

  predicate HasEncounter(nodes: seq<MapNode>) {
    exists i :: 0 <= i < |nodes| && nodes[i].kind == Encounter
  }

  predicate NoBoss(nodes: seq<MapNode>) {
    forall i :: 0 <= i < |nodes| ==> nodes[i].kind != Boss
  }

  /** pool with the entry at r taken out (List.RemoveAt). */
  function RemoveAt(pool: seq<MapNode>, r: nat): (s: seq<MapNode>)
    requires r < |pool|
    ensures |s| == |pool| - 1
    ensures multiset(s) + multiset{pool[r]} == multiset(pool)
  {
    assert pool == pool[..r] + [pool[r]] + pool[r + 1..];
    pool[..r] + pool[r + 1..]
  }

  /** Each index lies below the size of the pool it is drawn from, which shrinks by one per draw. */
  predicate ValidPicks(draws: seq<nat>, n: nat) {
    |draws| <= n && (|draws| == 0 || (draws[0] < n && ValidPicks(draws[1..], n - 1)))
  }

  /** The nodes drawn by the indices, one taken out of the pool per draw. */
  function Drawn(pool: seq<MapNode>, draws: seq<nat>): (d: seq<MapNode>)
    requires ValidPicks(draws, |pool|)
    ensures |d| == |draws|
    decreases |draws|
  {
    if |draws| == 0 then [] else [pool[draws[0]]] + Drawn(RemoveAt(pool, draws[0]), draws[1..])
  }

  /** Drawing takes nodes without replacement: the drawn nodes are a sub-multiset of the pool. */
  lemma {:induction false} DrawnWithoutReplacement(pool: seq<MapNode>, draws: seq<nat>)
    requires ValidPicks(draws, |pool|)
    ensures multiset(Drawn(pool, draws)) <= multiset(pool)
    decreases |draws|
  {
    if |draws| > 0 {
      var rest := RemoveAt(pool, draws[0]);
      DrawnWithoutReplacement(rest, draws[1..]);
      assert Drawn(pool, draws) == [pool[draws[0]]] + Drawn(rest, draws[1..]);
    }
  }

  /** The fix-up: a draw holding a fight is kept; otherwise the slot at fix becomes a fight. */
  function FixUp(nodes: seq<MapNode>, fix: nat): (r: seq<MapNode>)
    requires fix < |nodes|
    ensures |r| == |nodes| && HasEncounter(r)
    ensures HasEncounter(nodes) ==> r == nodes
    ensures forall i :: 0 <= i < |nodes| && i != fix ==> r[i] == nodes[i]
  {
    if HasEncounter(nodes) then nodes
    else
      var fixed: seq<MapNode> := nodes[fix := EncounterNode];
      assert fixed[fix].kind == Encounter;
      fixed
  }

  lemma PoolHasNoBoss()
    ensures NoBoss(Pool)
  {
    forall i | 0 <= i < |Pool|
      ensures Pool[i].kind != Boss
    {
      assert i == 0 || i == 1 || i == 2 || i == 3 || i == 4;
    }
  }

  /** Taking nodes out of a pool without bosses yields no boss. */
  lemma {:induction false} DrawnHasNoBoss(pool: seq<MapNode>, draws: seq<nat>)
    requires ValidPicks(draws, |pool|) && NoBoss(pool)
    ensures NoBoss(Drawn(pool, draws))
    decreases |draws|
  {
    if |draws| > 0 {
      var r := draws[0];
      var rest := RemoveAt(pool, r);
      assert rest == pool[..r] + pool[r + 1..];
      assert forall i :: 0 <= i < |rest| ==> rest[i] == (if i < r then pool[i] else pool[i + 1]);
      DrawnHasNoBoss(rest, draws[1..]);
    }
  }

  /** Whatever the draw, three nodes come out with a fight among them and no boss. */
  lemma NonBossShape(draws: seq<nat>, fix: nat)
    requires |draws| == 3 && ValidPicks(draws, 5) && fix < 3
    ensures |FixUp(Drawn(Pool, draws), fix)| == 3
    ensures HasEncounter(FixUp(Drawn(Pool, draws), fix))
    ensures NoBoss(FixUp(Drawn(Pool, draws), fix))
  {
    var d := Drawn(Pool, draws);
    PoolHasNoBoss();
    DrawnHasNoBoss(Pool, draws);
    if !HasEncounter(d) {
      var e: seq<MapNode> := d[fix := EncounterNode];
      assert e[fix].kind == Encounter;
    }
  }

  /** The pool is the three non-fight nodes and two fights. */
  lemma PoolParts()
    ensures multiset(Pool) == multiset(NonFights) + multiset{EncounterNode, EncounterNode}
  {
    assert Pool == [EncounterNode] + [RestNode, EventNode] + [EncounterNode] + [ShortEventNode];
  }

  /** The fix-up fires only on the draw of the three non-fight nodes. */
  lemma FixUpOnlyWithoutFights(draws: seq<nat>)
    requires |draws| == 3 && ValidPicks(draws, 5)
    ensures !HasEncounter(Drawn(Pool, draws)) ==> multiset(Drawn(Pool, draws)) == multiset(NonFights)
  {
    var d := Drawn(Pool, draws);
    if !HasEncounter(d) {
      DrawnWithoutReplacement(Pool, draws);
      PoolParts();
      assert EncounterNode !in multiset(d);
      WithoutAbsent(multiset(d), multiset(NonFights), EncounterNode);
      SubMultisetOfSameSize(multiset(d), multiset(NonFights));
    }
  }

  /** Removing from the bound two copies of a value that does not occur keeps the sub-multiset relation. */
  lemma WithoutAbsent(a: multiset<MapNode>, b: multiset<MapNode>, x: MapNode)
    requires a <= b + multiset{x, x} && x !in a
    ensures a <= b
  {
    forall y
      ensures a[y] <= b[y]
    {
      if y == x {
        assert a[y] == 0;
      }
    }
  }

  lemma SubMultisetOfSameSize(a: multiset<MapNode>, b: multiset<MapNode>)
    requires a <= b && |a| == |b|
    ensures a == b
  {
    var c := b - a;
    assert a + c == b;
    assert |c| == 0;
  }

  /** The pick loop of Generate: while fewer than want nodes are taken and the pool is not empty, take the drawn one out. */
  method Pick(pool0: seq<MapNode>, draws: seq<nat>, want: nat) returns (nodes: seq<MapNode>)
    requires |draws| == want <= |pool0| && ValidPicks(draws, |pool0|)
    ensures nodes == Drawn(pool0, draws)
  {
    nodes := [];
    var pool := pool0;
    var k := 0;
    while |nodes| < want && |pool| > 0
      invariant 0 <= k <= want && |nodes| == k && |pool| == |pool0| - k
      invariant ValidPicks(draws[k..], |pool|)
      invariant nodes + Drawn(pool, draws[k..]) == Drawn(pool0, draws)
      decreases want - k
    {
      var r := draws[k];
      assert draws[k..][1..] == draws[k + 1..];
      nodes := nodes + [pool[r]];
      pool := RemoveAt(pool, r);
      k := k + 1;
    }
  }

  /**
   * Generate: three Boss nodes from tier 4 on (the two side draws are made and dropped);
   * below it three pool nodes drawn without replacement, then the fight guarantee.
   */
  method Generate(tierIndex1to4: int, draws: seq<nat>, fix: nat, leftDraw: nat, rightDraw: nat) returns (nodes: seq<MapNode>)
    requires |draws| == 3 && ValidPicks(draws, 5) && fix < 3 && leftDraw < 3 && rightDraw < 3
    ensures |nodes| == 3
    ensures tierIndex1to4 >= 4 ==> forall i :: 0 <= i < 3 ==> nodes[i] == BossNode
    ensures tierIndex1to4 < 4 ==> nodes == FixUp(Drawn(Pool, draws), fix)
    ensures tierIndex1to4 < 4 ==> HasEncounter(nodes) && NoBoss(nodes)
    ensures tierIndex1to4 < 4 && HasEncounter(Drawn(Pool, draws)) ==> nodes == Drawn(Pool, draws)
  {
    if tierIndex1to4 < 4 {
      nodes := Pick(Pool, draws, 3);
      if !HasEncounter(nodes) {
        nodes := nodes[fix := EncounterNode];
      }
      NonBossShape(draws, fix);
    } else {
      var left := RandomSide(leftDraw);
      var right := RandomSide(rightDraw);
      nodes := [BossNode, BossNode, BossNode];
    }
  }
}
