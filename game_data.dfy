/**
 The game object: the saved record held in fields that the three event
 handlers update in place. Saving is modelled by a ghost log of every record
 written, so that the events that do not save can be stated without any file.
 */
module GameStore {
  import opened GameRules
  import GameProperties

  class GameData {
    var money: int
    var subs: int
    var clickPower: int
    var autoIncome: int
    var upgrades: map<Upgrade, int>
    /** Every record written to the save file, oldest first. */
    ghost var saved: seq<Record>
    /** The record the game was loaded with, and the events handled since. */
    ghost var start: Record
    ghost var history: seq<Event>

    /** The fields hold the record that the handled events lead to from the
        loaded one, and there was one save per persisting event. */
    ghost predicate Valid()
      reads this
    {
      && HasAllLevels(start)
      && Data() == Run(start, history)
      && |saved| == SaveCount(start, history)
    }

    /** The record the fields hold. */
    function Data(): Record
      reads this
    {
      Record(money, subs, clickPower, autoIncome, upgrades)
    }

    /** Starts a game from what the loader found on disk. Nothing is saved. */
    constructor (stored: Stored)
      ensures Data() == LoadData(stored)
      ensures saved == []
      ensures !stored.Parsed? ==> Inv(Data())
      ensures start == LoadData(stored) && history == []
      ensures HasAllLevels(start) ==> Valid()
    {
      var d := LoadData(stored);
      money := d.money;
      subs := d.subs;
      clickPower := d.clickPower;
      autoIncome := d.autoIncome;
      upgrades := d.upgrades;
      saved := [];
      start := d;
      history := [];
      GameProperties.LoadFallsBackToDefault(stored);
    }

    /** Writes the whole record to the save file. */
    method SaveData()
      modifies this`saved
      ensures saved == old(saved) + [Data()]
    {
      saved := saved + [Data()];
    }

    /** The player taps the stream button. */
    method OnStreamClick()
      modifies this
      ensures Data() == Click(old(Data()))
      ensures saved == old(saved) + [Data()]
      ensures start == old(start) && history == old(history) + [StreamClick]
      ensures old(Valid()) ==> Valid()
      ensures old(Inv(Data())) ==> Inv(Data())
    {
      var income := clickPower;
      money := money + income;
      SaveData();
      history := history + [StreamClick];
      if old(Valid()) {
        GameProperties.RecordEvent(start, old(history), StreamClick, old(Data()), Data(), old(|saved|), |saved|);
      }
      if old(Inv(Data())) {
        GameProperties.StepPreservesInv(old(Data()), StreamClick);
      }
    }

    /** The once-a-second timer fires. */
    method AutoIncomeTick()
      modifies this
      ensures Data() == Tick(old(Data()))
      ensures saved == if old(autoIncome) > 0 then old(saved) + [Data()] else old(saved)
      ensures start == old(start) && history == old(history) + [IncomeTick]
      ensures old(Valid()) ==> Valid()
      ensures old(Inv(Data())) ==> Inv(Data())
    {
      var income := autoIncome;
      if income > 0 {
        money := money + income;
        SaveData();
      }
      history := history + [IncomeTick];
      if old(Valid()) {
        GameProperties.RecordEvent(start, old(history), IncomeTick, old(Data()), Data(), old(|saved|), |saved|);
      }
      if old(Inv(Data())) {
        GameProperties.StepPreservesInv(old(Data()), IncomeTick);
      }
    }

    /** What one more level of `u` gives, applied to the fields. */
    method ApplyUpgradeEffect(u: Upgrade)
      modifies this`clickPower, this`autoIncome
      ensures Data() == ApplyEffect(old(Data()), u)
    {
      match u {
        case Mic => clickPower := clickPower + 1;
        case Cam => autoIncome := autoIncome + 2;
        case Pc => autoIncome := autoIncome + 10;
      }
    }

    /** The guarded purchase itself: pay, raise the level, apply the effect
        and save, or, without the money, do nothing at all. */
    method PayForUpgrade(u: Upgrade) returns (bought: bool)
      requires u in upgrades
      modifies this`money, this`upgrades, this`clickPower, this`autoIncome, this`saved
      ensures bought == CanAfford(old(Data()), u)
      ensures Data() == Buy(old(Data()), u)
      ensures saved == if bought then old(saved) + [Data()] else old(saved)
    {
      var info := UpgradeInfo(Data(), u);
      bought := money >= info.cost;
      if bought {
        money := money - info.cost;
        upgrades := upgrades[u := upgrades[u] + 1];
        ApplyUpgradeEffect(u);
        SaveData();
      }
    }

    /** The player taps the shop button of `u`. */
    method BuyUpgrade(u: Upgrade)
      requires u in upgrades
      modifies this
      ensures Data() == Buy(old(Data()), u)
      ensures saved == if CanAfford(old(Data()), u) then old(saved) + [Data()] else old(saved)
      ensures start == old(start) && history == old(history) + [Purchase(u)]
      ensures old(Valid()) ==> Valid()
      ensures old(Inv(Data())) ==> Inv(Data())
    {
      ghost var before := Data();
      var _ := PayForUpgrade(u);
      history := history + [Purchase(u)];
      if old(Valid()) {
        GameProperties.RecordEvent(start, old(history), Purchase(u), before, Data(), old(|saved|), |saved|);
      }
      if Inv(before) {
        GameProperties.StepPreservesInv(before, Purchase(u));
      }
    }
  }

  /** A game loaded from the default record keeps, after any handled
      events, every invariant of a reachable record. */
  lemma FreshGameKeepsInv(g: GameData)
    requires g.Valid() && g.start == DefaultRecord()
    ensures Inv(g.Data())
    ensures g.money >= 0 && g.clickPower >= 1 && g.autoIncome >= 0 && g.subs == 0
  {
    GameProperties.ReachableFromDefault(g.history);
  }
}
