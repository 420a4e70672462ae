/**
 What the rules promise: the price schedule, the all-or-nothing purchase,
 the frames of the three transitions, when a save happens, and the
 invariants every game started from the default record keeps.
 */
module GameProperties {
  import opened GameRules

  // ---------------------------------------------------------------------
  // Prices

  /** The first level of each upgrade costs 10, 50 and 200. */
  lemma FirstPrices()
    ensures Cost(Mic, 0) == 10 && Cost(Cam, 0) == 50 && Cost(Pc, 0) == 200
  {
  }

  /** The price is linear in the level: buying at level `lvl` costs
      `lvl + 1` times the first price, so the n-th purchase costs n times it. */
  lemma CostIsLinear(u: Upgrade, lvl: int)
    ensures Cost(u, lvl) == Cost(u, 0) * (lvl + 1)
  {
  }

  /** A higher level always costs strictly more. */
  lemma CostStrictlyIncreasing(u: Upgrade, i: int, j: int)
    requires i < j
    ensures Cost(u, i) < Cost(u, j)
  {
    CostIsLinear(u, i);
    CostIsLinear(u, j);
    assert Cost(u, j) - Cost(u, i) == Cost(u, 0) * (j - i);
  }

  /** The shop shows the current level and the price for that level. */
  lemma OfferShowsCurrentPrice(d: Record, u: Upgrade)
    requires u in d.upgrades
    ensures UpgradeInfo(d, u).lvl == d.upgrades[u]
    ensures UpgradeInfo(d, u).cost == Cost(u, 0) * (d.upgrades[u] + 1)
  {
    CostIsLinear(u, d.upgrades[u]);
  }

  // ---------------------------------------------------------------------
  // Purchases

  /** Without enough money a purchase changes nothing. */
  lemma BuyUnaffordableIsNoOp(d: Record, u: Upgrade)
    requires u in d.upgrades
    requires d.money < Cost(u, d.upgrades[u])
    ensures Buy(d, u) == d
    ensures !CanAfford(d, u)
  {
  }

  /** With enough money a purchase pays exactly the price, raises the bought
      level by one, applies that upgrade's effect and changes nothing else. */
  lemma BuyAffordable(d: Record, u: Upgrade)
    requires u in d.upgrades
    requires d.money >= Cost(u, d.upgrades[u])
    ensures CanAfford(d, u)
    ensures Buy(d, u).money == d.money - Cost(u, d.upgrades[u])
    ensures Buy(d, u).money >= 0
    ensures Buy(d, u).upgrades == d.upgrades[u := d.upgrades[u] + 1]
    ensures Buy(d, u).subs == d.subs
    ensures u == Mic ==>
      Buy(d, u).clickPower == d.clickPower + 1 && Buy(d, u).autoIncome == d.autoIncome
    ensures u == Cam ==>
      Buy(d, u).clickPower == d.clickPower && Buy(d, u).autoIncome == d.autoIncome + 2
    ensures u == Pc ==>
      Buy(d, u).clickPower == d.clickPower && Buy(d, u).autoIncome == d.autoIncome + 10
  {
  }

  /** The other two levels stay where they were, whether or not the purchase
      goes through. */
  lemma BuyLeavesOtherLevels(d: Record, u: Upgrade, v: Upgrade)
    requires u in d.upgrades && v in d.upgrades && v != u
    ensures Buy(d, u).upgrades[v] == d.upgrades[v]
  {
  }

  /** After buying `u` at level `lvl`, the next purchase of `u` costs the
      first price times `lvl + 2`, and the other prices do not move. */
  lemma BuyNextCost(d: Record, u: Upgrade)
    requires u in d.upgrades
    requires CanAfford(d, u)
    ensures UpgradeInfo(Buy(d, u), u).cost == Cost(u, 0) * (d.upgrades[u] + 2)
    ensures forall v :: v in d.upgrades && v != u ==>
      UpgradeInfo(Buy(d, u), v).cost == UpgradeInfo(d, v).cost
  {
    CostIsLinear(u, d.upgrades[u] + 1);
  }

  /** A purchase is all or nothing: it changes the record exactly when the
      player can afford it. */
  lemma BuyChangesIffAffordable(d: Record, u: Upgrade)
    requires u in d.upgrades
    ensures Buy(d, u) != d <==> CanAfford(d, u)
  {
    if CanAfford(d, u) {
      assert Buy(d, u).upgrades[u] != d.upgrades[u];
    }
  }

  // ---------------------------------------------------------------------
  // Clicks and ticks

  /** A click adds the click power to the money and changes nothing else. */
  lemma ClickAddsClickPower(d: Record)
    ensures Click(d).money == d.money + d.clickPower
    ensures Click(d).(money := d.money) == d
  {
  }

  /** `n` clicks in a row add `n` times the click power and change nothing else. */
  lemma {:induction false} ClicksAccumulate(d: Record, events: seq<Event>)
    requires HasAllLevels(d)
    requires forall i :: 0 <= i < |events| ==> events[i] == StreamClick
    ensures Run(d, events) == d.(money := d.money + |events| * d.clickPower)
    ensures SaveCount(d, events) == |events|
    decreases |events|
  {
    if events != [] {
      var d1 := Step(d, events[0]);
      assert d1 == d.(money := d.money + d.clickPower);
      ClicksAccumulate(d1, events[1..]);
      assert d.money + d.clickPower + (|events| - 1) * d.clickPower
          == d.money + |events| * d.clickPower;
    }
  }

  /** A tick with positive income adds it to the money and changes nothing
      else; otherwise it changes nothing. */
  lemma TickEffect(d: Record)
    ensures d.autoIncome > 0 ==>
      Tick(d).money == d.money + d.autoIncome && Tick(d).(money := d.money) == d
    ensures d.autoIncome <= 0 ==> Tick(d) == d
  {
  }

  /** Ticks without income never change the record and never save. */
  lemma {:induction false} IdleTicksChangeNothing(d: Record, events: seq<Event>)
    requires HasAllLevels(d)
    requires d.autoIncome <= 0
    requires forall i :: 0 <= i < |events| ==> events[i] == IncomeTick
    ensures Run(d, events) == d
    ensures SaveCount(d, events) == 0
    decreases |events|
  {
    if events != [] {
      assert Step(d, events[0]) == d;
      IdleTicksChangeNothing(d, events[1..]);
    }
  }

  // ---------------------------------------------------------------------
  // Runs and saves

  /** Running one more event is one more step after the run. */
  lemma {:induction false} RunAppend(d: Record, events: seq<Event>, e: Event)
    requires HasAllLevels(d)
    ensures Run(d, events + [e]) == Step(Run(d, events), e)
    decreases |events|
  {
    if events == [] {
      assert Run(Step(d, e), []) == Step(d, e);
      assert [e][1..] == [];
    } else {
      assert (events + [e])[0] == events[0];
      assert (events + [e])[1..] == events[1..] + [e];
      RunAppend(Step(d, events[0]), events[1..], e);
    }
  }

  /** One more event adds one save exactly when that event persists. */
  lemma {:induction false} SaveCountAppend(d: Record, events: seq<Event>, e: Event)
    requires HasAllLevels(d)
    ensures SaveCount(d, events + [e]) ==
            SaveCount(d, events) + (if Persists(Run(d, events), e) then 1 else 0)
    decreases |events|
  {
    if events == [] {
      assert [e][1..] == [];
    } else {
      assert (events + [e])[0] == events[0];
      assert (events + [e])[1..] == events[1..] + [e];
      SaveCountAppend(Step(d, events[0]), events[1..], e);
    }
  }

  /** Bookkeeping of a handled event: if `before` and `saves` are where the
      events lead from `start`, then `after` and `saves2` are where one more
      event `e` leads. */
  lemma RecordEvent(start: Record, events: seq<Event>, e: Event,
                    before: Record, after: Record, saves: nat, saves2: nat)
    requires HasAllLevels(start)
    requires before == Run(start, events) && saves == SaveCount(start, events)
    requires after == Step(before, e)
    requires saves2 == saves + (if Persists(before, e) then 1 else 0)
    ensures after == Run(start, events + [e]) && saves2 == SaveCount(start, events + [e])
  {
    RunAppend(start, events, e);
    SaveCountAppend(start, events, e);
  }

  /** In a reachable record an event saves exactly when it changes the record. */
  lemma PersistsIffChanged(d: Record, e: Event)
    requires Inv(d)
    ensures Persists(d, e) <==> Step(d, e) != d
  {
    match e
    case StreamClick =>
    case IncomeTick =>
    case Purchase(u) => BuyChangesIffAffordable(d, u);
  }

  // ---------------------------------------------------------------------
  // Invariants of reachable records

  lemma DefaultSatisfiesInv()
    ensures Inv(DefaultRecord())
  {
  }

  /** Loading falls back to the default record when there is no file and
      when the file cannot be read or parsed. */
  lemma LoadFallsBackToDefault(stored: Stored)
    ensures stored.Parsed? ==> LoadData(stored) == stored.record
    ensures !stored.Parsed? ==> LoadData(stored) == DefaultRecord() && Inv(LoadData(stored))
  {
  }

  lemma StepPreservesInv(d: Record, e: Event)
    requires Inv(d)
    ensures Inv(Step(d, e))
  {
  }

  lemma {:induction false} RunPreservesInv(d: Record, events: seq<Event>)
    requires Inv(d)
    ensures Inv(Run(d, events))
    decreases |events|
  {
    if events != [] {
      StepPreservesInv(d, events[0]);
      RunPreservesInv(Step(d, events[0]), events[1..]);
    }
  }

  /** Every record reachable from the default one has non-negative money, a
      click power of at least one, non-negative passive income, no
      subscribers, non-negative levels, and rates that match its levels. */
  lemma ReachableFromDefault(events: seq<Event>)
    ensures Inv(Run(DefaultRecord(), events))
    ensures Run(DefaultRecord(), events).money >= 0
    ensures Run(DefaultRecord(), events).clickPower >= 1
    ensures Run(DefaultRecord(), events).autoIncome >= 0
    ensures Run(DefaultRecord(), events).subs == 0
  {
    RunPreservesInv(DefaultRecord(), events);
  }

  lemma StepLevelsNeverDecrease(d: Record, e: Event)
    requires HasAllLevels(d)
    ensures LevelsNotBelow(d, Step(d, e))
  {
  }

  /** Levels never go down, whatever the events. */
  lemma {:induction false} RunLevelsNeverDecrease(d: Record, events: seq<Event>)
    requires HasAllLevels(d)
    ensures LevelsNotBelow(d, Run(d, events))
    decreases |events|
  {
    if events != [] {
      var d1 := Step(d, events[0]);
      StepLevelsNeverDecrease(d, events[0]);
      RunLevelsNeverDecrease(d1, events[1..]);
      assert forall u: Upgrade :: d.upgrades[u] <= d1.upgrades[u] <= Run(d, events).upgrades[u];
    }
  }

  /** The subscriber count is never touched. */
  lemma {:induction false} RunKeepsSubs(d: Record, events: seq<Event>)
    requires HasAllLevels(d)
    ensures Run(d, events).subs == d.subs
    decreases |events|
  {
    if events != [] {
      RunKeepsSubs(Step(d, events[0]), events[1..]);
    }
  }

  // ---------------------------------------------------------------------
  // Concrete games

  /** A fresh game: one click earns 1; the microphone (price 10) is then out
      of reach and buying it changes nothing. */
  lemma FreshGameClickThenBuy()
    ensures Run(DefaultRecord(), [StreamClick]).money == 1
    ensures Run(DefaultRecord(), [StreamClick, Purchase(Mic)]) ==
            Run(DefaultRecord(), [StreamClick])
  {
  }

  /** With 10 money the microphone is bought: money 0, click power 2, level 1,
      and the next microphone costs 20. */
  lemma BuyFirstMicrophone()
    ensures Buy(DefaultRecord().(money := 10), Mic) ==
            DefaultRecord().(clickPower := 2, upgrades := map[Mic := 1, Cam := 0, Pc := 0])
    ensures UpgradeInfo(Buy(DefaultRecord().(money := 10), Mic), Mic).cost == 20
  {
  }

  /** With a passive income of 2, one tick takes the money from 0 to 2. */
  lemma OneIncomeTick()
    ensures Tick(DefaultRecord().(autoIncome := 2)).money == 2
  {
  }

  /** The second webcam costs 100; with exactly 100 money the purchase leaves
      0 money, 2 more passive income and the webcam at level 2. */
  lemma BuySecondWebcam()
    ensures Buy(Record(100, 0, 1, 2, map[Mic := 0, Cam := 1, Pc := 0]), Cam) ==
            Record(0, 0, 1, 4, map[Mic := 0, Cam := 2, Pc := 0])
  {
  }
}
