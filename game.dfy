/**
 * The game world as the bot sees it: one snapshot of the character, the
 * visible entities and the game clock. Everything the game API supplies
 * (`parent.character`, `parent.entities`, `parent.next_skill`, `Date.now()`,
 * `is_pvp()`, `G.skills`) arrives here as plain values.
 */
module Game {
  import opened Wrappers

  /** An item; `level` is absent for items that cannot be upgraded. */
  datatype Item = Item(name: string, level: Option<int>)

  /** An inventory entry tagged with the slot it was found in. */
  datatype IndexedItem = IndexedItem(item: Item, index: nat)

  /** The entity's `type` field. */
  datatype EntityKind = Monster | Character | OtherKind

  /**
   * A visible entity. `dist` is its distance from our character, which the
   * game computes with a square root; the model takes it as given.
   */
  datatype Entity = Entity(
    id: string,
    kind: EntityKind,
    npc: bool,
    mtype: Option<string>,
    target: Option<string>,
    hp: int,
    attack: int,
    speed: int,
    range: int,
    aggro: real,
    dist: real)

  datatype MonsterHunt = MonsterHunt(id: string, c: int)

  /** The character's status effects (`s`) that the decisions consult. */
  datatype Status = Status(monsterhunt: Option<MonsterHunt>, holidayspirit: bool)

  datatype Position = Position(mapName: string, x: real, y: real)

  /** Our own character (`parent.character`). */
  datatype Me = Me(
    id: string,
    name: string,
    ctype: string,
    level: int,
    hp: int,
    maxHp: int,
    mp: int,
    maxMp: int,
    mpCost: int,
    attack: int,
    range: int,
    speed: int,
    ping: int,
    stoned: bool,
    rip: bool,
    mapName: string,
    items: seq<Option<Item>>,
    slots: seq<(string, Option<Item>)>,
    s: Status)

  /** A skill's static data (`G.skills[skill]`): minimum level and MP cost, when set. */
  datatype SkillInfo = SkillInfo(level: Option<int>, mp: Option<int>)

  /**
   * One snapshot. `nextSkill` is `parent.next_skill` (absent before the
   * game has sent it), mapping a skill to the time it is next usable.
   */
  datatype World = World(
    me: Me,
    entities: seq<Entity>,
    partyList: seq<string>,
    pvp: bool,
    smartMoving: bool,
    now: int,
    nextSkill: Option<map<string, int>>,
    skills: string -> SkillInfo)

  /** What `info` messages carry about a party member. */
  datatype PartyInfo = PartyInfo(
    canMonsterHunt: bool,
    items: seq<IndexedItem>,
    mapName: string,
    x: real,
    y: real,
    s: Status)

  /** What `npc` messages carry about a tracked NPC. */
  datatype NpcInfo = NpcInfo(lastSeen: int, mapName: string, x: real, y: real)

  /** What `player` messages carry about another player. */
  datatype PlayerInfo = PlayerInfo(lastSeen: int, rip: bool, mapName: string, x: real, y: real, ctype: string)
}
