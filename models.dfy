/**
 * The relational schema of the game database (the modules under models/) as values:
 * one record per row, one map per table keyed by the row's primary key,
 * and the declared constraints that the stored procedures rely on.
 */
module Models {

  datatype Option<+T> = None | Some(value: T)

  /** Python truthiness of a nullable integer column: both None and 0 are false. */
  predicate Truthy(x: Option<int>) {
    x.Some? && x.value != 0
  }

  datatype Character = Character(name: string, description: Option<string>)

  datatype Chapter = Chapter(name: string, worldNumber: int, description: Option<string>)

  datatype LocationType = Hub | Level | Dungeon | Other

  datatype Location = Location(chapterId: int, name: string, kind: LocationType, description: Option<string>)

  datatype Item = Item(name: string, isKeyItem: bool, effect: Option<string>)

  datatype Enemy = Enemy(characterId: int, hp: int, attack: int, defense: int, cardScore: int)

  datatype Boss = Boss(characterId: int, chapterId: int, phaseCount: int, specialMechanics: Option<string>)

  datatype Pixl = Pixl(name: string, unlockChapterId: Option<int>, ability: Option<string>, isOptional: bool)

  /** Keyed by the character id it shares with its Character row. */
  datatype PlayableCharacter = PlayableCharacter(unlockChapterId: Option<int>, specialAbility: Option<string>)

  datatype EffectType = Buff | Debuff {
    function Value(): string {
      match this
      case Buff => "buff"
      case Debuff => "debuff"
    }
  }

  datatype StatusEffect = StatusEffect(name: string, effectType: EffectType, durationSeconds: int)

  /** A row of character_status_effects, keyed by (character_id, status_id); times are integer seconds. */
  datatype CharacterStatusEffect = CharacterStatusEffect(appliedAt: int, expiresAt: int)

  datatype SideQuest = SideQuest(name: string, description: Option<string>,
                                 startLocationId: Option<int>, rewardItemId: Option<int>)

  /** The members of QuestRole; a row of quest_character, keyed by (quest_id, character_id), holds one. */
  datatype QuestRole = Giver | Target | Helper {
    function Value(): string {
      match this
      case Giver => "giver"
      case Target => "target"
      case Helper => "helper"
    }
  }

  datatype BlockType = Movable | Breakable | Save | Star {
    function Value(): string {
      match this
      case Movable => "movable"
      case Breakable => "breakable"
      case Save => "save"
      case Star => "star"
    }
  }

  /**
   * The Enum(BlockType) column's conversion of the string a caller supplies:
   * only a member's value is accepted, and it names that member.
   */
  function ParseBlockType(s: string): Option<BlockType> {
    if s == "movable" then Some(Movable)
    else if s == "breakable" then Some(Breakable)
    else if s == "save" then Some(Save)
    else if s == "star" then Some(Star)
    else None
  }

  /** The conversion accepts exactly the members' values, and each value names its own member. */
  lemma ParseBlockTypeExact(s: string)
    ensures ParseBlockType(s).Some? ==> ParseBlockType(s).value.Value() == s
    ensures ParseBlockType(s).None? ==> forall b: BlockType :: b.Value() != s
    ensures forall b: BlockType :: ParseBlockType(b.Value()) == Some(b)
  {
    forall b: BlockType ensures ParseBlockType(b.Value()) == Some(b) {
      match b
      case Movable =>
      case Breakable => assert "breakable" != "movable";
      case Save => assert "save" != "movable" && "save" != "breakable";
      case Star => assert "star" != "movable" && "star" != "breakable" && "star" != "save";
    }
  }

  predicate IsBlockTypeValue(s: string) {
    ParseBlockType(s).Some?
  }

  datatype Block = Block(locationId: int, blockType: BlockType, containsItemId: Option<int>, properties: Option<string>)

  /** The whole database at one instant. */
  datatype Tables = Tables(
    characters: map<int, Character>,
    chapters: map<int, Chapter>,
    locations: map<int, Location>,
    items: map<int, Item>,
    enemies: map<int, Enemy>,
    bosses: map<int, Boss>,
    pixls: map<int, Pixl>,
    playableCharacters: map<int, PlayableCharacter>,
    statusEffects: map<int, StatusEffect>,
    characterStatusEffects: map<(int, int), CharacterStatusEffect>,
    blocks: map<int, Block>,
    sideQuests: map<int, SideQuest>,
    questCharacters: map<(int, int), QuestRole>)

  function EmptyTables(): Tables {
    Tables(map[], map[], map[], map[], map[], map[], map[], map[], map[], map[], map[], map[], map[])
  }

  // ---------------------------------------------------------------------------
  // Declared constraints
  // ---------------------------------------------------------------------------

  predicate CharacterNameTaken(m: map<int, Character>, name: string) {
    exists id :: id in m && m[id].name == name
  }

  /** characters.name is UNIQUE. */
  predicate UniqueCharacterNames(m: map<int, Character>) {
    forall a, b :: a in m && b in m && m[a].name == m[b].name ==> a == b
  }

  predicate QuestNameTaken(m: map<int, SideQuest>, name: string) {
    exists id :: id in m && m[id].name == name
  }

  /** side_quests.name is UNIQUE. */
  predicate UniqueQuestNames(m: map<int, SideQuest>) {
    forall a, b :: a in m && b in m && m[a].name == m[b].name ==> a == b
  }

  /** The four CHECK constraints of the enemies table. */
  predicate EnemyChecks(e: Enemy) {
    e.hp > 0 && e.attack >= 0 && e.defense >= 0 && e.cardScore >= 0
  }

  /** The CHECK constraint of the bosses table. */
  predicate BossChecks(b: Boss) {
    b.phaseCount > 0
  }

  /** Every constraint the stored procedures can violate; the database refuses a flush or commit that breaks one. */
  predicate Consistent(t: Tables) {
    && UniqueCharacterNames(t.characters)
    && (forall id :: id in t.enemies ==> EnemyChecks(t.enemies[id]))
    && (forall id :: id in t.bosses ==> BossChecks(t.bosses[id]))
    && UniqueQuestNames(t.sideQuests)
  }

  /** The id allocator's invariant: every key a procedure may generate lies below next. */
  ghost predicate IdsBelow(t: Tables, next: int) {
    && (forall id :: id in t.characters ==> id < next)
    && (forall id :: id in t.enemies ==> id < next)
    && (forall id :: id in t.bosses ==> id < next)
    && (forall id :: id in t.blocks ==> id < next)
    && (forall id :: id in t.sideQuests ==> id < next)
    && (forall k :: k in t.questCharacters ==> k.0 < next)
  }

  lemma InsertUniqueName(m: map<int, Character>, id: int, c: Character)
    requires UniqueCharacterNames(m) && id !in m
    ensures UniqueCharacterNames(m[id := c]) <==> !CharacterNameTaken(m, c.name)
  {
    var m' := m[id := c];
    if CharacterNameTaken(m, c.name) {
      var other :| other in m && m[other].name == c.name;
      assert m'[other].name == m'[id].name && other != id;
    } else {
      forall a, b | a in m' && b in m' && m'[a].name == m'[b].name ensures a == b {
        if a != id && b != id {
          assert m[a].name == m[b].name;
        }
      }
    }
  }

  lemma InsertUniqueQuestName(m: map<int, SideQuest>, id: int, q: SideQuest)
    requires UniqueQuestNames(m) && id !in m
    ensures UniqueQuestNames(m[id := q]) <==> !QuestNameTaken(m, q.name)
  {
    var m' := m[id := q];
    if QuestNameTaken(m, q.name) {
      var other :| other in m && m[other].name == q.name;
      assert m'[other].name == m'[id].name && other != id;
    } else {
      forall a, b | a in m' && b in m' && m'[a].name == m'[b].name ensures a == b {
        if a != id && b != id {
          assert m[a].name == m[b].name;
        }
      }
    }
  }

  lemma InsertCharacter(t: Tables, id: int, c: Character)
    requires Consistent(t) && id !in t.characters
    ensures Consistent(t.(characters := t.characters[id := c])) <==> !CharacterNameTaken(t.characters, c.name)
  {
    InsertUniqueName(t.characters, id, c);
  }

  lemma InsertQuest(t: Tables, id: int, q: SideQuest)
    requires Consistent(t) && id !in t.sideQuests
    ensures Consistent(t.(sideQuests := t.sideQuests[id := q])) <==> !QuestNameTaken(t.sideQuests, q.name)
  {
    InsertUniqueQuestName(t.sideQuests, id, q);
  }

  lemma InsertEnemy(t: Tables, id: int, e: Enemy)
    requires Consistent(t)
    ensures Consistent(t.(enemies := t.enemies[id := e])) <==> EnemyChecks(e)
  {
    assert id in t.enemies[id := e];
  }

  lemma InsertBoss(t: Tables, id: int, b: Boss)
    requires Consistent(t)
    ensures Consistent(t.(bosses := t.bosses[id := b])) <==> BossChecks(b)
  {
    assert id in t.bosses[id := b];
  }

  /** No declared constraint involves the blocks table beyond its keys, which stay below the allocator. */
  lemma BlocksGrown(t: Tables, next: int, blocks: map<int, Block>, next': int)
    requires Consistent(t) && IdsBelow(t, next) && next <= next'
    requires forall id :: id in blocks ==> id < next'
    ensures Consistent(t.(blocks := blocks)) && IdsBelow(t.(blocks := blocks), next')
  {
  }

  // ---------------------------------------------------------------------------
  // Rows of one chapter, as the read-only queries select them
  // ---------------------------------------------------------------------------

  function ChapterLocationIds(t: Tables, chapterId: int): set<int> {
    set id | id in t.locations && t.locations[id].chapterId == chapterId
  }

  /** Bosses of the chapter joined to their Character row (an inner join drops a boss whose character is gone). */
  function ChapterBossIds(t: Tables, chapterId: int): set<int> {
    set id | id in t.bosses && t.bosses[id].chapterId == chapterId && t.bosses[id].characterId in t.characters
  }

  function ChapterPixlIds(t: Tables, chapterId: int): set<int> {
    set id | id in t.pixls && t.pixls[id].unlockChapterId == Some(chapterId)
  }

  /** Playable characters unlocked in the chapter, joined to their Character row. */
  function ChapterPlayableIds(t: Tables, chapterId: int): set<int> {
    set id | id in t.playableCharacters && t.playableCharacters[id].unlockChapterId == Some(chapterId)
                                        && id in t.characters
  }

  lemma NonEmpty(s: set<int>)
    requires s != {}
    ensures exists y :: y in s
  {
    if forall y :: y !in s {
      assert false;
    }
  }

  /** The least element of a non-empty set of ids. */
  ghost function MinOf(s: set<int>): (m: int)
    requires s != {}
    ensures m in s && forall x :: x in s ==> m <= x
    decreases |s|
  {
    NonEmpty(s);
    var y :| y in s;
    if s == {y} then
      assert forall x :: x in s ==> x == y;
      y
    else
      var r := MinOf(s - {y});
      assert forall x :: x in s ==> x == y || x in s - {y};
      if y < r then y else r
  }

  /**
   * The ids of a query result in ascending order. The queries have no ORDER BY,
   * so the database may return any order; this model fixes ascending ids.
   */
  ghost function SortedIds(s: set<int>): (r: seq<int>)
    ensures |r| == |s|
    ensures forall i :: 0 <= i < |r| ==> r[i] in s
    ensures forall x :: x in s ==> x in r
    decreases |s|
  {
    if s == {} then []
    else
      var m := MinOf(s);
      assert |s - {m}| == |s| - 1;
      var rest := SortedIds(s - {m});
      assert forall x :: x in s ==> x == m || x in rest;
      [m] + rest
  }

  predicate Ascending(r: seq<int>) {
    forall i, j :: 0 <= i < j < |r| ==> r[i] < r[j]
  }

  lemma AscendingCons(m: int, rest: seq<int>)
    requires Ascending(rest) && forall k :: 0 <= k < |rest| ==> m < rest[k]
    ensures Ascending([m] + rest)
  {
    var r := [m] + rest;
    forall i, j | 0 <= i < j < |r| ensures r[i] < r[j] {
      assert r[j] == rest[j - 1];
      if i > 0 {
        assert r[i] == rest[i - 1];
      }
    }
  }

  lemma {:induction false} SortedIdsAscending(s: set<int>)
    ensures Ascending(SortedIds(s))
    decreases |s|
  {
    if s != {} {
      var m := MinOf(s);
      var rest := SortedIds(s - {m});
      SortedIdsAscending(s - {m});
      assert forall k :: 0 <= k < |rest| ==> rest[k] in s - {m};
      AscendingCons(m, rest);
    }
  }
}
