/**
 The game rules of the streamer clicker: the saved record, the price of an
 upgrade, and the three transitions (a click, a passive-income tick and a
 purchase) as pure functions on the record. The class in game_data.dfy runs
 the same transitions in place and is proved to agree with these functions.
 */
module GameRules {

  /** The three upgrades the shop offers. */
  datatype Upgrade = Mic | Cam | Pc

  /** The saved record: the `data` dictionary of the game. Python integers
      are unbounded, so every field is a plain `int`; nothing bounds them
      below either. */
  datatype Record = Record(
    money: int,
    subs: int,
    clickPower: int,
    autoIncome: int,
    upgrades: map<Upgrade, int>)

  /** What the loader found on disk: no file, a file that could not be read
      or parsed, or a parsed record. */
  datatype Stored = Missing | Unreadable | Parsed(record: Record)

  /** The record a new game starts from. */
  function DefaultRecord(): (r: Record)
    ensures HasAllLevels(r)
  {
    var levels := map[Mic := 0, Cam := 0, Pc := 0];
    ThreeKeysCoverAll(levels);
    Record(0, 0, 1, 0, levels)
  }

  /** Loading: the parsed file if there is one, the default record otherwise. */
  function LoadData(stored: Stored): Record {
    match stored
    case Parsed(rec) => rec
    case _ => DefaultRecord()
  }

  /** Every upgrade has a level in the record. */
  predicate HasAllLevels(d: Record) {
    forall u: Upgrade :: u in d.upgrades
  }

  /** A map with the three upgrades as keys has a level for every upgrade. */
  lemma ThreeKeysCoverAll(levels: map<Upgrade, int>)
    requires Mic in levels && Cam in levels && Pc in levels
    ensures forall u: Upgrade :: u in levels
  {
    forall u: Upgrade ensures u in levels {
      match u
      case Mic =>
      case Cam =>
      case Pc =>
    }
  }

  /** The price of buying `u` when it stands at level `lvl`. */
  function Cost(u: Upgrade, lvl: int): (cost: int)
    ensures lvl >= 0 ==> cost > 0
  {
    match u
    case Mic => 10 * (lvl + 1)
    case Cam => 50 * (lvl + 1)
    case Pc => 200 * (lvl + 1)
  }

  /** The label the shop shows for the effect of `u`. */
  function EffectLabel(u: Upgrade): string {
    match u
    case Mic => "Click Power +1"
    case Cam => "Passive Income +2 $/sec"
    case Pc => "Passive Income +10 $/sec"
  }

  /** What the shop knows about one upgrade: its price, its effect and its
      current level. */
  datatype Offer = Offer(cost: int, effect: string, lvl: int)

  function UpgradeInfo(d: Record, u: Upgrade): Offer
    requires u in d.upgrades
  {
    var lvl := d.upgrades[u];
    Offer(Cost(u, lvl), EffectLabel(u), lvl)
  }

  /** A manual click earns the click power. */
  function Click(d: Record): Record {
    d.(money := d.money + d.clickPower)
  }

  /** A tick earns the passive income, and does nothing unless it is positive. */
  function Tick(d: Record): Record {
    if d.autoIncome > 0 then d.(money := d.money + d.autoIncome) else d
  }

  predicate CanAfford(d: Record, u: Upgrade)
    requires u in d.upgrades
  {
    d.money >= UpgradeInfo(d, u).cost
  }

  /** What one more level of `u` gives. */
  function ApplyEffect(d: Record, u: Upgrade): Record {
    match u
    case Mic => d.(clickPower := d.clickPower + 1)
    case Cam => d.(autoIncome := d.autoIncome + 2)
    case Pc => d.(autoIncome := d.autoIncome + 10)
  }

  /** A purchase: pay the price, raise the level, apply the effect; without
      the money, nothing happens. */
  function Buy(d: Record, u: Upgrade): (r: Record)
    requires u in d.upgrades
    ensures r.upgrades.Keys == d.upgrades.Keys
  {
    var info := UpgradeInfo(d, u);
    if d.money >= info.cost then
      ApplyEffect(d.(money := d.money - info.cost,
                     upgrades := d.upgrades[u := d.upgrades[u] + 1]), u)
    else
      d
  }

  /** The events the user interface feeds into the game. */
  datatype Event = StreamClick | IncomeTick | Purchase(upgrade: Upgrade)

  function Step(d: Record, e: Event): (r: Record)
    requires HasAllLevels(d)
    ensures HasAllLevels(r)
  {
    match e
    case StreamClick => Click(d)
    case IncomeTick => Tick(d)
    case Purchase(u) => Buy(d, u)
  }

  /** Whether the event ends with a save of the record. */
  predicate Persists(d: Record, e: Event)
    requires HasAllLevels(d)
  {
    match e
    case StreamClick => true
    case IncomeTick => d.autoIncome > 0
    case Purchase(u) => CanAfford(d, u)
  }

  /** The record after the events, in order. */
  function Run(d: Record, events: seq<Event>): (r: Record)
    requires HasAllLevels(d)
    ensures HasAllLevels(r)
    decreases |events|
  {
    if events == [] then d else Run(Step(d, events[0]), events[1..])
  }

  /** How many saves the events cause. */
  function SaveCount(d: Record, events: seq<Event>): (n: nat)
    requires HasAllLevels(d)
    ensures n <= |events|
    decreases |events|
  {
    if events == [] then 0
    else (if Persists(d, events[0]) then 1 else 0) + SaveCount(Step(d, events[0]), events[1..])
  }

  /** Every record reachable from the default one satisfies this. */
  predicate Inv(d: Record) {
    && HasAllLevels(d)
    && d.money >= 0
    && d.subs == 0
    && d.clickPower >= 1
    && d.autoIncome >= 0
    && d.upgrades[Mic] >= 0 && d.upgrades[Cam] >= 0 && d.upgrades[Pc] >= 0
    // the rates are exactly what the bought levels give
    && d.clickPower == 1 + d.upgrades[Mic]
    && d.autoIncome == 2 * d.upgrades[Cam] + 10 * d.upgrades[Pc]
  }

  /** No level of `d` is above the same level of `d2`. */
  predicate LevelsNotBelow(d: Record, d2: Record)
    requires HasAllLevels(d) && HasAllLevels(d2)
  {
    forall u: Upgrade :: d.upgrades[u] <= d2.upgrades[u]
  }
}
