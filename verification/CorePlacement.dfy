/**
 Placing decoder sessions on the two video cores: each goes, once and for all, to the core that carries less
 at the time.  The lemmas compare the outcome with every other way to split the same sessions.
 */
module CorePlacement {
  import opened Rates
  import opened Sums

  /** `coreId` is 0 while the session is on neither core. */
  datatype Session = Session(
    sessionOpen: bool, decoder: bool, coreId: nat, mbpf: nat, frameRate: nat, operatingRate: nat)

  /** The rate a session counts with; its starting placeholder stands for the default rate. */
  function EffectiveFps(s: Session): (fps: nat)
    ensures 1 <= fps != MAXIMUM_FPS
  {
    var fps := Max(s.frameRate, s.operatingRate);
    if fps == MAXIMUM_FPS then DEFAULT_FPS else Max(fps, 1)
  }

  function Weight(s: Session): nat {
    s.mbpf * EffectiveFps(s)
  }

  /** What a session adds to the load of core `id`. */
  function LoadOf(id: nat): Session -> nat {
    (s: Session) => if s.sessionOpen && s.decoder && s.coreId == id then Weight(s) else 0
  }

  function LoadOn(ss: seq<Session>, id: nat): nat {
    Sum(ss, LoadOf(id))
  }

  /** The core for session `k`, given what the others load; one that is placed stays. */
  function Decide(ss: seq<Session>, k: nat, twoCores: bool): (id: nat)
    requires k < |ss|
  {
    var others := ss[k := ss[k].(coreId := 0)];
    if ss[k].coreId != 0 then ss[k].coreId
    else if twoCores && LoadOn(others, 1) > LoadOn(others, 2) then 2
    else 1
  }

  function Place(ss: seq<Session>, k: nat, twoCores: bool): seq<Session>
    requires k < |ss|
  {
    ss[k := ss[k].(coreId := Decide(ss, k, twoCores))]
  }

  /** The weight is the frame size times the greater rate, one at least; 480, with which a session starts, counts as 30. */
  lemma RateThatCounts(s: Session)
    ensures s.frameRate == MAXIMUM_FPS && s.operatingRate <= MAXIMUM_FPS ==> Weight(s) == DEFAULT_FPS * s.mbpf
    ensures s.operatingRate == MAXIMUM_FPS && s.frameRate <= MAXIMUM_FPS ==> Weight(s) == DEFAULT_FPS * s.mbpf
    ensures s.operatingRate <= s.frameRate != MAXIMUM_FPS && s.frameRate > 0 ==> Weight(s) == s.frameRate * s.mbpf
    ensures s.frameRate <= s.operatingRate != MAXIMUM_FPS && s.operatingRate > 0 ==> Weight(s) == s.operatingRate * s.mbpf
    ensures s.frameRate == s.operatingRate == 0 ==> Weight(s) == s.mbpf
  {
  }

  /**
   A session that is placed stays where it is.  Another goes to the second core exactly if there are two and the
   first one carries more; only it is changed, and from then on it adds its weight to that core if it is an open decoder.
   */
  lemma WhereSessionsGo(ss: seq<Session>, k: nat, twoCores: bool)
    requires k < |ss|
    ensures var after := Place(ss, k, twoCores);
            && |after| == |ss| && (forall j | 0 <= j < |ss| && j != k :: after[j] == ss[j])
            && (ss[k].coreId != 0 ==> after == ss)
            && (ss[k].coreId == 0 ==>
                  after[k] == ss[k].(coreId := after[k].coreId)
                  && after[k].coreId == if twoCores && LoadOn(ss, 1) > LoadOn(ss, 2) then 2 else 1)
            && (ss[k].coreId == 0 ==>
                  && LoadOn(after, after[k].coreId)
                     == LoadOn(ss, after[k].coreId) + (if ss[k].sessionOpen && ss[k].decoder then Weight(ss[k]) else 0)
                  && LoadOn(after, 3 - after[k].coreId) == LoadOn(ss, 3 - after[k].coreId))
  {
    hide Sum;
    if ss[k].coreId == 0 {
      assert ss[k := ss[k].(coreId := 0)] == ss;
      var s := ss[k].(coreId := Decide(ss, k, twoCores));
      assert Weight(s) == Weight(ss[k]);
      SumUpdate(ss, k, s, LoadOf(1));
      SumUpdate(ss, k, s, LoadOf(2));
    } else {
      assert Place(ss, k, twoCores) == ss;
    }
  }

  method OtherLoads(ss: seq<Session>, k: nat) returns (core1: nat, core2: nat)
    requires k < |ss| && ss[k].coreId == 0
    ensures core1 == LoadOn(ss, 1) && core2 == LoadOn(ss, 2)
  {
    core1, core2 := 0, 0;
    assert ss[..0] == [];
    for j := 0 to |ss|
      invariant core1 == LoadOn(ss[..j], 1) && core2 == LoadOn(ss[..j], 2)
    {
      var s := ss[j];
      assert ss[..j + 1] == ss[..j] + [s];
      SumSnoc(ss[..j], s, LoadOf(1));
      SumSnoc(ss[..j], s, LoadOf(2));
      if j == k || !s.sessionOpen || !s.decoder {
        continue;
      }
      var fps := Max(s.frameRate, s.operatingRate);
      if fps == MAXIMUM_FPS {
        fps := DEFAULT_FPS;
      }
      fps := Max(fps, 1);
      if s.coreId == 1 {
        core1 := core1 + s.mbpf * fps;
      } else if s.coreId == 2 {
        core2 := core2 + s.mbpf * fps;
      }
    }
    assert ss[..|ss|] == ss;
  }

  class Placer {
    const legacy: bool
    const pipes: nat
    var instances: seq<Session>

    constructor (legacy: bool, pipes: nat, instances: seq<Session>)
      ensures this.legacy == legacy && this.pipes == pipes && this.instances == instances
    {
      this.legacy, this.pipes, this.instances := legacy, pipes, instances;
    }

    /** A new placement the firmware is not told about is taken back. */
    method DecideCore(k: nat, sent: bool) returns (ok: bool)
      requires k < |instances|
      modifies this`instances
      ensures ok == sent
      ensures instances == if sent then Place(old(instances), k, legacy && pipes > 1) else old(instances)
    {
      var newlyPlaced := false;
      if instances[k].coreId == 0 {
        var core1, core2 := OtherLoads(instances, k);
        assert instances[k := instances[k].(coreId := 0)] == instances;
        if legacy && pipes > 1 && core1 > core2 {
          instances := instances[k := instances[k].(coreId := 2)];
        } else {
          instances := instances[k := instances[k].(coreId := 1)];
        }
        newlyPlaced := true;
      }
      ok := sent;
      if !ok && newlyPlaced {
        instances := instances[k := instances[k].(coreId := 0)];
      }
    }
  }

  // The greedy split on its own.

  datatype Loads = Loads(one: nat, two: nat) {
    function Busier(): nat {
      Max(one, two)
    }
  }

  function Greedy(ws: seq<nat>): Loads {
    if ws == [] then Loads(0, 0)
    else
      var before, w := Greedy(ws[..|ws| - 1]), ws[|ws| - 1];
      if before.one > before.two then before.(two := before.two + w) else before.(one := before.one + w)
  }

  /** Any split: session `k` goes to the second core exactly when `choice(k)`. */
  function Split(ws: seq<nat>, choice: nat -> bool): Loads {
    if ws == [] then Loads(0, 0)
    else
      var k := |ws| - 1;
      var before := Split(ws[..k], choice);
      if choice(k) then before.(two := before.two + ws[k]) else before.(one := before.one + ws[k])
  }

  function Total(ws: seq<nat>): nat {
    Sum(ws, w => w)
  }

  function Largest(ws: seq<nat>): nat {
    if ws == [] then 0 else Max(Largest(ws[..|ws| - 1]), ws[|ws| - 1])
  }

  lemma {:induction false} GreedyIsBalanced(ws: seq<nat>)
    ensures var g := Greedy(ws);
            && g.one + g.two == Total(ws)
            && g.one <= g.two + Largest(ws) && g.two <= g.one + Largest(ws)
            && 2 * g.Busier() <= Total(ws) + Largest(ws)
  {
    if ws != [] {
      GreedyIsBalanced(ws[..|ws| - 1]);
    }
  }

  lemma {:induction false} SplitCarriesAll(ws: seq<nat>, choice: nat -> bool)
    ensures var s := Split(ws, choice);
            s.one + s.two == Total(ws) && Largest(ws) <= s.Busier()
  {
    if ws != [] {
      SplitCarriesAll(ws[..|ws| - 1], choice);
    }
  }

  /** The busier core carries at most half again as much as in the best split there is. */
  lemma GreedyWithinThreeHalves(ws: seq<nat>, choice: nat -> bool)
    ensures 2 * Greedy(ws).Busier() <= 3 * Split(ws, choice).Busier()
  {
    GreedyIsBalanced(ws);
    SplitCarriesAll(ws, choice);
  }

  lemma GreedySnoc(ws: seq<nat>, w: nat, choice: nat -> bool)
    ensures var g := Greedy(ws);
            Greedy(ws + [w]) == if g.one > g.two then g.(two := g.two + w) else g.(one := g.one + w)
    ensures var s := Split(ws, choice);
            Split(ws + [w], choice) == if choice(|ws|) then s.(two := s.two + w) else s.(one := s.one + w)
  {
    assert (ws + [w])[..|ws|] == ws;
  }

  /** No better bound holds: two small sessions and then a large one reach it. */
  lemma ThreeHalvesIsTight(w: nat)
    ensures 2 * Greedy([w, w, 2 * w]).Busier() == 3 * Split([w, w, 2 * w], (k: nat) => k == 2).Busier()
  {
    var last := (k: nat) => k == 2;
    GreedySnoc([], w, last);
    GreedySnoc([w], w, last);
    GreedySnoc([w, w], 2 * w, last);
    assert [] + [w] == [w] && [w] + [w] == [w, w] && [w, w] + [2 * w] == [w, w, 2 * w];
  }

  // Sessions placed one after the other.

  /** Places the sessions of `order`, first to last. */
  function PlaceAll(ss: seq<Session>, order: seq<nat>): (r: seq<Session>)
    requires forall i | 0 <= i < |order| :: order[i] < |ss|
    ensures |r| == |ss|
  {
    if order == [] then ss
    else Place(PlaceAll(ss, order[..|order| - 1]), order[|order| - 1], true)
  }

  predicate Waiting(ss: seq<Session>, order: seq<nat>) {
    && (forall i | 0 <= i < |order| :: order[i] < |ss| && ss[order[i]].sessionOpen && ss[order[i]].decoder)
    && (forall i, j | 0 <= i < j < |order| :: order[i] != order[j])
    && (forall k | 0 <= k < |ss| :: ss[k].coreId == 0)
  }

  function Weights(ss: seq<Session>, order: seq<nat>): seq<nat>
    requires forall i | 0 <= i < |order| :: order[i] < |ss|
  {
    seq(|order|, i requires 0 <= i < |order| => Weight(ss[order[i]]))
  }

  lemma {:induction false} NothingPlacedYet(ss: seq<Session>, id: nat)
    requires forall k | 0 <= k < |ss| :: ss[k].coreId == 0
    requires id != 0
    ensures LoadOn(ss, id) == 0
  {
    if ss != [] {
      NothingPlacedYet(ss[..|ss| - 1], id);
    }
  }

  lemma {:induction false} OnlyOrderIsPlaced(ss: seq<Session>, order: seq<nat>, k: nat)
    requires Waiting(ss, order) && k < |ss|
    ensures var r := PlaceAll(ss, order)[k];
            r == ss[k].(coreId := r.coreId) && (k !in order ==> r == ss[k]) && (k in order ==> r.coreId == 1 || r.coreId == 2)
  {
    if order != [] {
      var n := |order| - 1;
      assert order == order[..n] + [order[n]];
      OnlyOrderIsPlaced(ss, order[..n], k);
    }
  }

  /** The loads that placing sessions one by one builds up are those of the greedy split of their weights. */
  lemma {:induction false} PlacementIsGreedy(ss: seq<Session>, order: seq<nat>)
    requires Waiting(ss, order)
    ensures Greedy(Weights(ss, order)) == Loads(LoadOn(PlaceAll(ss, order), 1), LoadOn(PlaceAll(ss, order), 2))
  {
    if order == [] {
      NothingPlacedYet(ss, 1);
      NothingPlacedYet(ss, 2);
    } else {
      var n := |order| - 1;
      var k, before := order[n], PlaceAll(ss, order[..n]);
      PlacementIsGreedy(ss, order[..n]);
      OnlyOrderIsPlaced(ss, order[..n], k);
      assert Weights(ss, order)[..n] == Weights(ss, order[..n]);
      assert before[k := before[k].(coreId := 0)] == before;
      var s := before[k].(coreId := Decide(before, k, true));
      SumUpdate(before, k, s, LoadOf(1));
      SumUpdate(before, k, s, LoadOf(2));
    }
  }

  /** However many decoders are placed, in whatever order: the cores differ by no more than one session. */
  lemma PlacementIsBalanced(ss: seq<Session>, order: seq<nat>, choice: nat -> bool)
    requires Waiting(ss, order)
    ensures var ws := Weights(ss, order);
            var busier := Max(LoadOn(PlaceAll(ss, order), 1), LoadOn(PlaceAll(ss, order), 2));
            && LoadOn(PlaceAll(ss, order), 1) <= LoadOn(PlaceAll(ss, order), 2) + Largest(ws)
            && LoadOn(PlaceAll(ss, order), 2) <= LoadOn(PlaceAll(ss, order), 1) + Largest(ws)
            && 2 * busier <= Total(ws) + Largest(ws)
            && 2 * busier <= 3 * Split(ws, choice).Busier()
  {
    PlacementIsGreedy(ss, order);
    GreedyIsBalanced(Weights(ss, order));
    GreedyWithinThreeHalves(Weights(ss, order), choice);
  }
}
