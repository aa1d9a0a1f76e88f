/**
 * The multi-step transactional operations of stored_procedures.py over an
 * in-memory database. Each write procedure saves the current state, makes its
 * writes one by one, and at each flush or commit asks whether the declared
 * constraints still hold: if they do the writes stay, otherwise the saved
 * state is put back (the rollback) and a failure is returned.
 */
module StoredProcedures {
  import opened Models

  /** Why a procedure failed; the human-readable message texts are not modelled. */
  datatype Error =
    | ChapterNotFound(chapterId: int)
    | LocationNotFound(locationId: int)
    | ItemNotFound(itemId: int)
    | CharacterNotFound(characterId: int)
    | StatusEffectNotFound(statusId: int)
    | InvalidItemIds(itemIds: set<int>)
    | SourceBlockNotFound(blockId: int)
    | DestinationBlockNotFound(blockId: int)
    | SourceBlockHasNoItem
    /** The database rejected a flush or the commit; the transaction was rolled back. */
    | IntegrityError

  /** The {"success": ...} dictionary every procedure returns. */
  datatype Result<+T> = Success(value: T) | Failure(error: Error)

  /** An exception that no handler of the procedure catches. */
  datatype Exception = AttributeError(attribute: string)

  /** What a call can end in when an uncaught exception is possible. */
  datatype Raising<+T> = Returned(result: Result<T>) | Raised(exception: Exception)

  datatype EnemyCreated = EnemyCreated(characterId: int, enemyId: int)

  datatype BossCreated = BossCreated(characterId: int, bossId: int, chapter: string)

  datatype QuestCharacterAdded = QuestCharacterAdded(name: string, role: QuestRole)

  datatype QuestCreated = QuestCreated(questId: int, questName: string, charactersAdded: seq<QuestCharacterAdded>)

  datatype Action = Applied | Updated

  datatype StatusApplied = StatusApplied(characterName: string, statusName: string, effectType: string,
                                         appliedAt: int, expiresAt: int, action: Action)

  /** One entry of block_configs. */
  datatype BlockConfig = BlockConfig(blockType: string, containsItemId: Option<int>, properties: Option<string>)

  datatype BlockCreated = BlockCreated(blockId: int, blockType: string, containsItemId: Option<int>)

  datatype LocationPopulated = LocationPopulated(locationName: string, blocksCreated: nat, blocks: seq<BlockCreated>)

  /** itemName is "Unknown" when the item row is missing. */
  datatype ItemTransferred = ItemTransferred(itemId: int, itemName: string, fromBlockId: int, toBlockId: int)

  // ---------------------------------------------------------------------------
  // Side-quest role tagging
  // ---------------------------------------------------------------------------

  /** An optional character id that is truthy and names an existing character. */
  predicate Resolves(characters: map<int, Character>, id: Option<int>) {
    Truthy(id) && id.value in characters
  }

  /** The helper ids that name existing characters, in list order, each tagged Helper. */
  function HelperRoles(characters: map<int, Character>, helperIds: seq<int>): (r: seq<(int, QuestRole)>)
    ensures |r| <= |helperIds|
    ensures forall k :: 0 <= k < |r| ==> r[k].0 in characters && r[k].1 == Helper
    ensures forall k :: 0 <= k < |helperIds| && helperIds[k] in characters ==> (helperIds[k], Helper) in r
    ensures forall k :: 0 <= k < |r| ==> r[k].0 in helperIds
  {
    if helperIds == [] then []
    else
      var last := helperIds[|helperIds| - 1];
      var init := helperIds[..|helperIds| - 1];
      assert forall k :: 0 <= k < |init| ==> init[k] == helperIds[k];
      HelperRoles(characters, init) + (if last in characters then [(last, Helper)] else [])
  }

  /**
   * The join rows the procedure means to create: the giver, then the target,
   * then each helper, skipping every id that does not resolve.
   */
  function ResolvedRoles(characters: map<int, Character>, giverId: Option<int>, targetId: Option<int>,
                         helperIds: seq<int>): (r: seq<(int, QuestRole)>)
    ensures forall k :: 0 <= k < |r| ==> r[k].0 in characters
  {
    (if Resolves(characters, giverId) then [(giverId.value, Giver)] else [])
    + (if Resolves(characters, targetId) then [(targetId.value, Target)] else [])
    + HelperRoles(characters, helperIds)
  }

  /**
   * The role tagging as stored_procedures.py writes it: QuestRole has only the
   * lower-case members, so the first id that resolves raises AttributeError on
   * GIVER, TARGET or HELPER.
   */
  function RoleTaggingAsWritten(characters: map<int, Character>, giverId: Option<int>, targetId: Option<int>,
                                helperIds: seq<int>): Option<Exception>
  {
    if Resolves(characters, giverId) then Some(AttributeError("GIVER"))
    else if Resolves(characters, targetId) then Some(AttributeError("TARGET"))
    else if exists k :: 0 <= k < |helperIds| && helperIds[k] in characters then Some(AttributeError("HELPER"))
    else None
  }

  /**
   * As written, the procedure raises exactly when the intended one would add
   * at least one quest character: no quest with a resolving character survives.
   */
  lemma RaisesIffSomeRoleResolves(characters: map<int, Character>, giverId: Option<int>, targetId: Option<int>,
                                  helperIds: seq<int>)
    ensures RoleTaggingAsWritten(characters, giverId, targetId, helperIds).Some? <==>
            ResolvedRoles(characters, giverId, targetId, helperIds) != []
  {
    var helpers := HelperRoles(characters, helperIds);
    if helpers != [] {
      assert helpers[0].0 in helperIds && helpers[0].0 in characters;
      var k :| 0 <= k < |helperIds| && helperIds[k] == helpers[0].0;
    }
    if exists k :: 0 <= k < |helperIds| && helperIds[k] in characters {
      var k :| 0 <= k < |helperIds| && helperIds[k] in characters;
      assert (helperIds[k], Helper) in helpers;
    }
  }

  /** A quest whose giver is an existing character raises on GIVER instead of adding it. */
  lemma GiverRaisesAttributeError()
    ensures var characters := map[1 := Character("Luigi", None)];
            && RoleTaggingAsWritten(characters, Some(1), None, []) == Some(AttributeError("GIVER"))
            && ResolvedRoles(characters, Some(1), None, []) == [(1, Giver)]
  {
  }

  /** The giver, the target and then the helpers loop of the procedure, computing the rows to add. */
  method PendingRoles(characters: map<int, Character>, giverId: Option<int>, targetId: Option<int>,
                      helperIds: seq<int>) returns (pending: seq<(int, QuestRole)>)
    ensures pending == ResolvedRoles(characters, giverId, targetId, helperIds)
  {
    var named := [];
    if Resolves(characters, giverId) {
      named := named + [(giverId.value, Giver)];
    }
    if Resolves(characters, targetId) {
      named := named + [(targetId.value, Target)];
    }
    var helpers := [];
    var i := 0;
    while i < |helperIds|
      invariant 0 <= i <= |helperIds|
      invariant helpers == HelperRoles(characters, helperIds[..i])
    {
      assert helperIds[..i + 1][..i] == helperIds[..i];
      if helperIds[i] in characters {
        helpers := helpers + [(helperIds[i], Helper)];
      }
      i := i + 1;
    }
    assert helperIds[..i] == helperIds;
    pending := named + helpers;
  }

  predicate DistinctIds(roles: seq<(int, QuestRole)>) {
    forall i, j :: 0 <= i < j < |roles| ==> roles[i].0 != roles[j].0
  }

  /** The quest_character rows for one quest, inserted in the order of roles. */
  function RoleRows(questId: int, roles: seq<(int, QuestRole)>): (m: map<(int, int), QuestRole>)
    ensures forall k :: k in m ==> k.0 == questId
    ensures forall c :: (questId, c) in m <==> exists k :: 0 <= k < |roles| && roles[k].0 == c
    ensures DistinctIds(roles) ==> forall k :: 0 <= k < |roles| ==> m[(questId, roles[k].0)] == roles[k].1
  {
    if roles == [] then map[]
    else
      var init := roles[..|roles| - 1];
      var last := roles[|roles| - 1];
      assert forall k :: 0 <= k < |init| ==> init[k] == roles[k];
      RoleRows(questId, init)[(questId, last.0) := last.1]
  }

  function AddedCharacters(characters: map<int, Character>, roles: seq<(int, QuestRole)>): seq<QuestCharacterAdded>
    requires forall k :: 0 <= k < |roles| ==> roles[k].0 in characters
  {
    seq(|roles|, k requires 0 <= k < |roles| => QuestCharacterAdded(characters[roles[k].0].name, roles[k].1))
  }

  /** Both up-front references of a new quest: a truthy id must name an existing row. */
  predicate QuestReferencesResolve(t: Tables, startLocationId: Option<int>, rewardItemId: Option<int>) {
    && (!Truthy(startLocationId) || startLocationId.value in t.locations)
    && (!Truthy(rewardItemId) || rewardItemId.value in t.items)
  }

  // ---------------------------------------------------------------------------
  // Block batches
  // ---------------------------------------------------------------------------

  /** The truthy contains_item_id values of the configs. */
  function ReferencedItemIds(configs: seq<BlockConfig>): set<int> {
    set k | 0 <= k < |configs| && Truthy(configs[k].containsItemId) :: configs[k].containsItemId.value
  }

  predicate BlockTypesValid(configs: seq<BlockConfig>) {
    forall k :: 0 <= k < |configs| ==> IsBlockTypeValue(configs[k].blockType)
  }

  /** The row a config becomes once its block_type is accepted. */
  function BlockOf(locationId: int, config: BlockConfig): Block
    requires IsBlockTypeValue(config.blockType)
  {
    Block(locationId, ParseBlockType(config.blockType).value, config.containsItemId, config.properties)
  }

  /** The rows a batch adds: config k becomes the block with id firstId + k. */
  function NewBlocks(locationId: int, firstId: int, configs: seq<BlockConfig>): (m: map<int, Block>)
    requires BlockTypesValid(configs)
    ensures forall id :: id in m <==> firstId <= id < firstId + |configs|
    ensures forall k :: 0 <= k < |configs| ==> m[firstId + k] == BlockOf(locationId, configs[k])
  {
    if configs == [] then map[]
    else
      var init := configs[..|configs| - 1];
      assert forall k :: 0 <= k < |init| ==> init[k] == configs[k];
      NewBlocks(locationId, firstId, init)[firstId + |init| := BlockOf(locationId, configs[|configs| - 1])]
  }

  /**
   * The loop of populate_location_with_blocks: config k becomes the block with
   * id firstId + k, each flushed as it is added; the first block_type that is
   * not a BlockType value stops the loop.
   */
  method BatchRows(locationId: int, firstId: int, configs: seq<BlockConfig>) returns (ok: bool, added: map<int, Block>)
    ensures ok <==> BlockTypesValid(configs)
    ensures ok ==> added == NewBlocks(locationId, firstId, configs)
  {
    added := map[];
    var i := 0;
    while i < |configs|
      invariant 0 <= i <= |configs|
      invariant BlockTypesValid(configs[..i])
      invariant added == NewBlocks(locationId, firstId, configs[..i])
    {
      // each block is flushed on its own; an unknown block_type is refused here
      var kind := ParseBlockType(configs[i].blockType);
      if kind.None? {
        return false, added;
      }
      assert configs[..i + 1][..i] == configs[..i];
      added := added[firstId + i := Block(locationId, kind.value, configs[i].containsItemId, configs[i].properties)];
      i := i + 1;
    }
    assert configs[..i] == configs;
    ok := true;
  }

  /** The per-block entries of the procedure's result, in config order. */
  function CreatedBlocks(firstId: int, configs: seq<BlockConfig>): seq<BlockCreated> {
    seq(|configs|, k requires 0 <= k < |configs| =>
        BlockCreated(firstId + k, configs[k].blockType, configs[k].containsItemId))
  }

  // ---------------------------------------------------------------------------
  // The database
  // ---------------------------------------------------------------------------

  /**
   * The database a request's session works on. Every write goes into tables;
   * nextId is the key the next flushed row receives.
   */
  class Database {
    var tables: Tables
    var nextId: int

    ghost predicate Valid()
      reads this
    {
      Consistent(tables) && IdsBelow(tables, nextId)
    }

    constructor ()
      ensures Valid() && tables == EmptyTables()
    {
      tables := EmptyTables();
      nextId := 1;
    }

    /**
     * db.add(row) followed by db.flush() for a new character: the row gets the
     * next generated id, and the flush fails when the name is already taken,
     * leaving the tables as they were.
     */
    method FlushCharacter(c: Character) returns (ok: bool, id: int)
      requires Valid()
      modifies this
      ensures Valid() && id == old(nextId)
      ensures ok <==> !CharacterNameTaken(old(tables.characters), c.name)
      ensures ok ==> id !in old(tables.characters) && nextId == id + 1
                     && tables == old(tables).(characters := old(tables.characters)[id := c])
      ensures !ok ==> tables == old(tables) && nextId == old(nextId)
    {
      var saved, savedNext := tables, nextId;
      id := nextId;
      tables, nextId := tables.(characters := tables.characters[id := c]), nextId + 1;
      InsertCharacter(saved, id, c);
      ok := Consistent(tables);
      if !ok {
        tables, nextId := saved, savedNext;
      }
    }

    /** A new enemy row, refused when it breaks a CHECK constraint of the enemies table. */
    method FlushEnemy(e: Enemy) returns (ok: bool, id: int)
      requires Valid()
      modifies this
      ensures Valid() && id == old(nextId)
      ensures ok <==> EnemyChecks(e)
      ensures ok ==> id !in old(tables.enemies) && nextId == id + 1
                     && tables == old(tables).(enemies := old(tables.enemies)[id := e])
      ensures !ok ==> tables == old(tables) && nextId == old(nextId)
    {
      var saved, savedNext := tables, nextId;
      id := nextId;
      tables, nextId := tables.(enemies := tables.enemies[id := e]), nextId + 1;
      InsertEnemy(saved, id, e);
      ok := Consistent(tables);
      if !ok {
        tables, nextId := saved, savedNext;
      }
    }

    /** A new boss row, refused when phase_count is not positive. */
    method FlushBoss(b: Boss) returns (ok: bool, id: int)
      requires Valid()
      modifies this
      ensures Valid() && id == old(nextId)
      ensures ok <==> BossChecks(b)
      ensures ok ==> id !in old(tables.bosses) && nextId == id + 1
                     && tables == old(tables).(bosses := old(tables.bosses)[id := b])
      ensures !ok ==> tables == old(tables) && nextId == old(nextId)
    {
      var saved, savedNext := tables, nextId;
      id := nextId;
      tables, nextId := tables.(bosses := tables.bosses[id := b]), nextId + 1;
      InsertBoss(saved, id, b);
      ok := Consistent(tables);
      if !ok {
        tables, nextId := saved, savedNext;
      }
    }

    /** A new side quest, refused when its name is already taken. */
    method FlushQuest(q: SideQuest) returns (ok: bool, id: int)
      requires Valid()
      modifies this
      ensures Valid() && id == old(nextId)
      ensures ok <==> !QuestNameTaken(old(tables.sideQuests), q.name)
      ensures ok ==> id !in old(tables.sideQuests) && nextId == id + 1
                     && tables == old(tables).(sideQuests := old(tables.sideQuests)[id := q])
      ensures !ok ==> tables == old(tables) && nextId == old(nextId)
    {
      var saved, savedNext := tables, nextId;
      id := nextId;
      tables, nextId := tables.(sideQuests := tables.sideQuests[id := q]), nextId + 1;
      InsertQuest(saved, id, q);
      ok := Consistent(tables);
      if !ok {
        tables, nextId := saved, savedNext;
      }
    }

    /** The quest_character rows for a quest already flushed, added at the commit. */
    method FlushQuestCharacters(questId: int, roles: seq<(int, QuestRole)>)
      requires Valid() && questId < nextId
      modifies this
      ensures Valid() && nextId == old(nextId)
      ensures tables == old(tables).(questCharacters := old(tables.questCharacters) + RoleRows(questId, roles))
    {
      tables := tables.(questCharacters := tables.questCharacters + RoleRows(questId, roles));
    }

    /** db.rollback(): the state saved when the transaction began comes back. */
    method Rollback(saved: Tables, savedNext: int)
      requires Consistent(saved) && IdsBelow(saved, savedNext)
      modifies this
      ensures Valid() && tables == saved && nextId == savedNext
    {
      tables, nextId := saved, savedNext;
    }

    /** create_enemy_with_character: a Character row and the Enemy row that references it, both or neither. */
    method CreateEnemyWithCharacter(name: string, description: Option<string>,
                                    hp: int, attack: int, defense: int, cardScore: int)
      returns (r: Result<EnemyCreated>)
      requires Valid()
      modifies this
      ensures Valid()
      ensures r.Success? <==> !CharacterNameTaken(old(tables.characters), name)
                              && hp > 0 && attack >= 0 && defense >= 0 && cardScore >= 0
      ensures r.Failure? ==> r.error == IntegrityError && tables == old(tables) && nextId == old(nextId)
      ensures r.Success? ==>
        var c, e := r.value.characterId, r.value.enemyId;
        && c !in old(tables.characters) && e !in old(tables.enemies)
        && tables == old(tables).(characters := old(tables.characters)[c := Character(name, description)],
                                  enemies := old(tables.enemies)[e := Enemy(c, hp, attack, defense, cardScore)])
    {
      var saved, savedNext := tables, nextId;
      // the flush that obtains the character id enforces the unique name
      var ok, characterId := FlushCharacter(Character(name, description));
      if !ok {
        return Failure(IntegrityError);
      }
      // the commit enforces the CHECK constraints of the enemies table
      var enemyId;
      ok, enemyId := FlushEnemy(Enemy(characterId, hp, attack, defense, cardScore));
      if !ok {
        Rollback(saved, savedNext);
        return Failure(IntegrityError);
      }
      r := Success(EnemyCreated(characterId, enemyId));
    }

    /** create_boss_with_character: the chapter must exist; then a Character and its Boss, both or neither. */
    method CreateBossWithCharacter(name: string, description: Option<string>, chapterId: int,
                                   phaseCount: int, specialMechanics: Option<string>)
      returns (r: Result<BossCreated>)
      requires Valid()
      modifies this
      ensures Valid()
      ensures chapterId !in old(tables.chapters) ==> r == Failure(ChapterNotFound(chapterId))
      ensures chapterId in old(tables.chapters) && r.Failure? ==> r.error == IntegrityError
      ensures r.Success? <==> chapterId in old(tables.chapters) && !CharacterNameTaken(old(tables.characters), name)
                              && phaseCount > 0
      ensures r.Failure? ==> tables == old(tables) && nextId == old(nextId)
      ensures r.Success? ==>
        var c, b := r.value.characterId, r.value.bossId;
        && c !in old(tables.characters) && b !in old(tables.bosses)
        && r.value.chapter == old(tables.chapters)[chapterId].name
        && tables == old(tables).(characters := old(tables.characters)[c := Character(name, description)],
                                  bosses := old(tables.bosses)[b := Boss(c, chapterId, phaseCount, specialMechanics)])
    {
      if chapterId !in tables.chapters {
        return Failure(ChapterNotFound(chapterId));
      }
      var saved, savedNext := tables, nextId;
      var ok, characterId := FlushCharacter(Character(name, description));
      if !ok {
        return Failure(IntegrityError);
      }
      var bossId;
      ok, bossId := FlushBoss(Boss(characterId, chapterId, phaseCount, specialMechanics));
      if !ok {
        Rollback(saved, savedNext);
        return Failure(IntegrityError);
      }
      r := Success(BossCreated(characterId, bossId, tables.chapters[chapterId].name));
    }

    /**
     * create_side_quest_with_characters as written. The up-front references are
     * checked, the quest is flushed, and then the first giver, target or helper id
     * that resolves raises AttributeError, which escapes the SQLAlchemyError handler;
     * the request's session is closed without a commit, so nothing is kept.
     */
    method CreateSideQuestWithCharacters(questName: string, description: Option<string>,
                                         startLocationId: Option<int>, rewardItemId: Option<int>,
                                         questGiverId: Option<int>, questTargetId: Option<int>,
                                         questHelperIds: seq<int>)
      returns (r: Raising<QuestCreated>)
      requires Valid()
      modifies this
      ensures Valid()
      ensures Truthy(startLocationId) && startLocationId.value !in old(tables.locations) ==>
                r == Returned(Failure(LocationNotFound(startLocationId.value)))
      ensures (!Truthy(startLocationId) || startLocationId.value in old(tables.locations))
              && Truthy(rewardItemId) && rewardItemId.value !in old(tables.items) ==>
                r == Returned(Failure(ItemNotFound(rewardItemId.value)))
      ensures (QuestReferencesResolve(old(tables), startLocationId, rewardItemId)
               && QuestNameTaken(old(tables.sideQuests), questName)) ==> r == Returned(Failure(IntegrityError))
      ensures QuestReferencesResolve(old(tables), startLocationId, rewardItemId)
              && !QuestNameTaken(old(tables.sideQuests), questName) ==>
                match RoleTaggingAsWritten(old(tables.characters), questGiverId, questTargetId, questHelperIds)
                case Some(e) => r == Raised(e)
                case None => r.Returned? && r.result.Success?
      ensures !(r.Returned? && r.result.Success?) ==> tables == old(tables) && nextId == old(nextId)
      ensures r.Returned? && r.result.Success? ==>
        var q := r.result.value.questId;
        && q !in old(tables.sideQuests)
        && r.result.value == QuestCreated(q, questName, [])
        && tables == old(tables).(sideQuests := old(tables.sideQuests)[q := SideQuest(questName, description,
                                                                                     startLocationId, rewardItemId)])
    {
      if Truthy(startLocationId) && startLocationId.value !in tables.locations {
        return Returned(Failure(LocationNotFound(startLocationId.value)));
      }
      if Truthy(rewardItemId) && rewardItemId.value !in tables.items {
        return Returned(Failure(ItemNotFound(rewardItemId.value)));
      }
      var saved, savedNext := tables, nextId;
      // the flush that obtains the quest id enforces the unique name
      var ok, questId := FlushQuest(SideQuest(questName, description, startLocationId, rewardItemId));
      if !ok {
        return Returned(Failure(IntegrityError));
      }
      var characters := tables.characters;
      if Resolves(characters, questGiverId) {
        Rollback(saved, savedNext);
        return Raised(AttributeError("GIVER"));
      }
      if Resolves(characters, questTargetId) {
        Rollback(saved, savedNext);
        return Raised(AttributeError("TARGET"));
      }
      var i := 0;
      while i < |questHelperIds| && questHelperIds[i] !in characters
        invariant 0 <= i <= |questHelperIds|
        invariant forall k :: 0 <= k < i ==> questHelperIds[k] !in characters
      {
        i := i + 1;
      }
      if i < |questHelperIds| {
        Rollback(saved, savedNext);
        return Raised(AttributeError("HELPER"));
      }
      r := Returned(Success(QuestCreated(questId, questName, [])));
    }

    /**
     * The side-quest procedure as its documentation means it: every giver, target
     * or helper id that resolves becomes a quest_character row with its role;
     * the commit fails on a repeated character, the composite key's violation.
     */
    method CreateSideQuestWithCharactersIntended(questName: string, description: Option<string>,
                                                 startLocationId: Option<int>, rewardItemId: Option<int>,
                                                 questGiverId: Option<int>, questTargetId: Option<int>,
                                                 questHelperIds: seq<int>)
      returns (r: Result<QuestCreated>)
      requires Valid()
      modifies this
      ensures Valid()
      ensures Truthy(startLocationId) && startLocationId.value !in old(tables.locations) ==>
                r == Failure(LocationNotFound(startLocationId.value))
      ensures (!Truthy(startLocationId) || startLocationId.value in old(tables.locations))
              && Truthy(rewardItemId) && rewardItemId.value !in old(tables.items) ==>
                r == Failure(ItemNotFound(rewardItemId.value))
      ensures QuestReferencesResolve(old(tables), startLocationId, rewardItemId) && r.Failure? ==>
                r.error == IntegrityError
      ensures r.Success? <==>
                && QuestReferencesResolve(old(tables), startLocationId, rewardItemId)
                && !QuestNameTaken(old(tables.sideQuests), questName)
                && DistinctIds(ResolvedRoles(old(tables.characters), questGiverId, questTargetId, questHelperIds))
      ensures r.Failure? ==> tables == old(tables) && nextId == old(nextId)
      ensures r.Success? ==>
        var q := r.value.questId;
        var roles := ResolvedRoles(old(tables.characters), questGiverId, questTargetId, questHelperIds);
        && q !in old(tables.sideQuests)
        && r.value == QuestCreated(q, questName, AddedCharacters(old(tables.characters), roles))
        && tables == old(tables).(
             sideQuests := old(tables.sideQuests)[q := SideQuest(questName, description, startLocationId, rewardItemId)],
             questCharacters := old(tables.questCharacters) + RoleRows(q, roles))
    {
      if Truthy(startLocationId) && startLocationId.value !in tables.locations {
        return Failure(LocationNotFound(startLocationId.value));
      }
      if Truthy(rewardItemId) && rewardItemId.value !in tables.items {
        return Failure(ItemNotFound(rewardItemId.value));
      }
      var saved, savedNext := tables, nextId;
      var ok, questId := FlushQuest(SideQuest(questName, description, startLocationId, rewardItemId));
      if !ok {
        return Failure(IntegrityError);
      }
      var characters := tables.characters;
      var pending := PendingRoles(characters, questGiverId, questTargetId, questHelperIds);
      // the commit flushes the join rows; a repeated (quest_id, character_id) key fails
      if !DistinctIds(pending) {
        Rollback(saved, savedNext);
        return Failure(IntegrityError);
      }
      FlushQuestCharacters(questId, pending);
      r := Success(QuestCreated(questId, questName, AddedCharacters(characters, pending)));
    }

    /**
     * apply_status_effect_to_character: an upsert on (character_id, status_id).
     * An existing row only gets a new expiry; otherwise a row is created with
     * applied_at = now. The reported applied_at is now in both cases.
     */
    method ApplyStatusEffectToCharacter(characterId: int, statusId: int, durationSeconds: int, now: int)
      returns (r: Result<StatusApplied>)
      requires Valid()
      modifies this
      ensures Valid()
      ensures characterId !in old(tables.characters) ==> r == Failure(CharacterNotFound(characterId))
      ensures characterId in old(tables.characters) && statusId !in old(tables.statusEffects) ==>
                r == Failure(StatusEffectNotFound(statusId))
      ensures r.Success? <==> characterId in old(tables.characters) && statusId in old(tables.statusEffects)
      ensures r.Failure? ==> tables == old(tables) && nextId == old(nextId)
      ensures r.Success? ==>
        var key := (characterId, statusId);
        var existed := key in old(tables.characterStatusEffects);
        var status := old(tables.statusEffects)[statusId];
        var row := if existed then old(tables.characterStatusEffects)[key].(expiresAt := now + durationSeconds)
                   else CharacterStatusEffect(now, now + durationSeconds);
        && tables == old(tables).(characterStatusEffects := old(tables.characterStatusEffects)[key := row])
        && nextId == old(nextId)
        && r.value == StatusApplied(old(tables.characters)[characterId].name, status.name, status.effectType.Value(),
                                    now, now + durationSeconds, if existed then Updated else Applied)
    {
      if characterId !in tables.characters {
        return Failure(CharacterNotFound(characterId));
      }
      if statusId !in tables.statusEffects {
        return Failure(StatusEffectNotFound(statusId));
      }
      var key := (characterId, statusId);
      var expiresAt := now + durationSeconds;
      var row, action;
      if key in tables.characterStatusEffects {
        row, action := tables.characterStatusEffects[key].(expiresAt := expiresAt), Updated;
      } else {
        row, action := CharacterStatusEffect(now, expiresAt), Applied;
      }
      // no constraint involves character_status_effects, so the commit succeeds
      var status := tables.statusEffects[statusId];
      r := Success(StatusApplied(tables.characters[characterId].name, status.name, status.effectType.Value(),
                                 now, expiresAt, action));
      tables := tables.(characterStatusEffects := tables.characterStatusEffects[key := row]);
    }

    /**
     * The blocks of a batch, written to the blocks table; a batch whose
     * configs are not all accepted writes nothing.
     */
    method FlushBlocks(locationId: int, configs: seq<BlockConfig>) returns (ok: bool)
      requires Valid()
      modifies this
      ensures Valid()
      ensures ok <==> BlockTypesValid(configs)
      ensures ok ==> && (forall id :: id in NewBlocks(locationId, old(nextId), configs) ==> id !in old(tables.blocks))
                     && tables == old(tables).(blocks := old(tables.blocks) + NewBlocks(locationId, old(nextId), configs))
                     && nextId == old(nextId) + |configs|
      ensures !ok ==> tables == old(tables) && nextId == old(nextId)
    {
      var added;
      ok, added := BatchRows(locationId, nextId, configs);
      if ok {
        ghost var blocks := tables.blocks + added;
        assert forall id :: id in blocks ==> id < nextId + |configs|;
        BlocksGrown(tables, nextId, blocks, nextId + |configs|);
        tables, nextId := tables.(blocks := tables.blocks + added), nextId + |configs|;
      }
    }

    /**
     * populate_location_with_blocks: the location must exist and every truthy
     * contains_item_id must name an item; then one block per config, in order,
     * and all of them or none are kept.
     */
    method PopulateLocationWithBlocks(locationId: int, configs: seq<BlockConfig>)
      returns (r: Result<LocationPopulated>)
      requires Valid()
      modifies this
      ensures Valid()
      ensures locationId !in old(tables.locations) ==> r == Failure(LocationNotFound(locationId))
      ensures locationId in old(tables.locations) && ReferencedItemIds(configs) - old(tables.items).Keys != {} ==>
                r == Failure(InvalidItemIds(ReferencedItemIds(configs) - old(tables.items).Keys))
      ensures (locationId in old(tables.locations) && ReferencedItemIds(configs) <= old(tables.items).Keys
               && r.Failure?) ==> r.error == IntegrityError
      ensures r.Success? <==> locationId in old(tables.locations) && ReferencedItemIds(configs) <= old(tables.items).Keys
                              && BlockTypesValid(configs)
      ensures r.Failure? ==> tables == old(tables) && nextId == old(nextId)
      ensures r.Success? ==>
        var added := NewBlocks(locationId, old(nextId), configs);
        && r.value == LocationPopulated(old(tables.locations)[locationId].name, |configs|,
                                        CreatedBlocks(old(nextId), configs))
        && (forall id :: id in added ==> id !in old(tables.blocks))
        && tables == old(tables).(blocks := old(tables.blocks) + added)
        && nextId == old(nextId) + |configs|
    {
      if locationId !in tables.locations {
        return Failure(LocationNotFound(locationId));
      }
      var invalid := ReferencedItemIds(configs) - tables.items.Keys;
      if invalid != {} {
        assert exists id :: id in invalid;
        return Failure(InvalidItemIds(invalid));
      }
      assert ReferencedItemIds(configs) <= tables.items.Keys by {
        forall id | id in ReferencedItemIds(configs) ensures id in tables.items {
          assert id !in invalid;
        }
      }
      var saved, savedNext := tables, nextId;
      var ok := FlushBlocks(locationId, configs);
      if !ok {
        Rollback(saved, savedNext);
        return Failure(IntegrityError);
      }
      var created := CreatedBlocks(savedNext, configs);
      r := Success(LocationPopulated(saved.locations[locationId].name, |created|, created));
    }

    /**
     * transfer_item_between_blocks: both blocks must exist and the source must
     * hold a truthy item id; the source is emptied, then the destination takes
     * the item, so a transfer from a block to itself leaves it holding the item.
     */
    method TransferItemBetweenBlocks(fromBlockId: int, toBlockId: int) returns (r: Result<ItemTransferred>)
      requires Valid()
      modifies this
      ensures Valid()
      ensures fromBlockId !in old(tables.blocks) ==> r == Failure(SourceBlockNotFound(fromBlockId))
      ensures fromBlockId in old(tables.blocks) && toBlockId !in old(tables.blocks) ==>
                r == Failure(DestinationBlockNotFound(toBlockId))
      ensures (fromBlockId in old(tables.blocks) && toBlockId in old(tables.blocks)
               && !Truthy(old(tables.blocks)[fromBlockId].containsItemId)) ==> r == Failure(SourceBlockHasNoItem)
      ensures r.Success? <==> fromBlockId in old(tables.blocks) && toBlockId in old(tables.blocks)
                              && Truthy(old(tables.blocks)[fromBlockId].containsItemId)
      ensures r.Failure? ==> tables == old(tables) && nextId == old(nextId)
      ensures r.Success? ==>
        var old_blocks := old(tables.blocks);
        var item := old_blocks[fromBlockId].containsItemId.value;
        && tables.blocks.Keys == old_blocks.Keys
        && tables.blocks[toBlockId] == old_blocks[toBlockId].(containsItemId := Some(item))
        && (fromBlockId != toBlockId ==> tables.blocks[fromBlockId] == old_blocks[fromBlockId].(containsItemId := None))
        && (fromBlockId == toBlockId ==> tables.blocks == old_blocks)
        && (forall id :: id in old_blocks && id != fromBlockId && id != toBlockId ==>
              tables.blocks[id] == old_blocks[id])
        && tables == old(tables).(blocks := tables.blocks) && nextId == old(nextId)
        && r.value == ItemTransferred(item, if item in old(tables.items) then old(tables.items)[item].name else "Unknown",
                                      fromBlockId, toBlockId)
    {
      if fromBlockId !in tables.blocks {
        return Failure(SourceBlockNotFound(fromBlockId));
      }
      if toBlockId !in tables.blocks {
        return Failure(DestinationBlockNotFound(toBlockId));
      }
      var from := tables.blocks[fromBlockId];
      if !Truthy(from.containsItemId) {
        return Failure(SourceBlockHasNoItem);
      }
      var itemId := from.containsItemId.value;
      var itemName := if itemId in tables.items then tables.items[itemId].name else "Unknown";
      var emptied := tables.blocks[fromBlockId := from.(containsItemId := None)];
      var filled := emptied[toBlockId := emptied[toBlockId].(containsItemId := Some(itemId))];
      // no constraint is touched, so the commit succeeds
      BlocksGrown(tables, nextId, filled, nextId);
      tables := tables.(blocks := filled);
      r := Success(ItemTransferred(itemId, itemName, fromBlockId, toBlockId));
    }
  }

  // ---------------------------------------------------------------------------
  // The read-only aggregate
  // ---------------------------------------------------------------------------

  datatype ChapterHeader = ChapterHeader(chapterId: int, name: string, worldNumber: int, description: Option<string>)

  datatype LocationSummary = LocationSummary(locationId: int, name: string, kind: LocationType)

  datatype BossSummary = BossSummary(bossId: int, name: string, phaseCount: int, specialMechanics: Option<string>)

  datatype PixlSummary = PixlSummary(pixlId: int, name: string, ability: Option<string>, isOptional: bool)

  datatype PlayableSummary = PlayableSummary(characterId: int, name: string, specialAbility: Option<string>)

  datatype ChapterStatistics = ChapterStatistics(totalLocations: nat, totalBosses: nat, totalPixls: nat,
                                                 totalPlayableCharacters: nat)

  datatype ChapterInfo = ChapterInfo(chapter: ChapterHeader, locations: seq<LocationSummary>,
                                     bosses: seq<BossSummary>, pixls: seq<PixlSummary>,
                                     playableCharacters: seq<PlayableSummary>, statistics: ChapterStatistics)

  ghost function LocationList(t: Tables, chapterId: int): (r: seq<LocationSummary>)
    ensures |r| == |ChapterLocationIds(t, chapterId)|
    ensures forall k :: 0 <= k < |r| ==>
              var id := r[k].locationId;
              id in t.locations && t.locations[id].chapterId == chapterId
              && r[k] == LocationSummary(id, t.locations[id].name, t.locations[id].kind)
    ensures forall id :: id in ChapterLocationIds(t, chapterId) ==> exists k :: 0 <= k < |r| && r[k].locationId == id
  {
    var ids := SortedIds(ChapterLocationIds(t, chapterId));
    var r := seq(|ids|, k requires 0 <= k < |ids| =>
                 LocationSummary(ids[k], t.locations[ids[k]].name, t.locations[ids[k]].kind));
    forall id | id in ChapterLocationIds(t, chapterId) ensures exists k :: 0 <= k < |r| && r[k].locationId == id {
      var k :| 0 <= k < |ids| && ids[k] == id;
      assert r[k].locationId == id;
    }
    r
  }

  ghost function BossList(t: Tables, chapterId: int): (r: seq<BossSummary>)
    ensures |r| == |ChapterBossIds(t, chapterId)|
    ensures forall k :: 0 <= k < |r| ==>
              var id := r[k].bossId;
              id in ChapterBossIds(t, chapterId)
              && r[k] == BossSummary(id, t.characters[t.bosses[id].characterId].name,
                                     t.bosses[id].phaseCount, t.bosses[id].specialMechanics)
    ensures forall id :: id in ChapterBossIds(t, chapterId) ==> exists k :: 0 <= k < |r| && r[k].bossId == id
  {
    var ids := SortedIds(ChapterBossIds(t, chapterId));
    var r := seq(|ids|, k requires 0 <= k < |ids| =>
                 var b := t.bosses[ids[k]];
                 BossSummary(ids[k], t.characters[b.characterId].name, b.phaseCount, b.specialMechanics));
    forall id | id in ChapterBossIds(t, chapterId) ensures exists k :: 0 <= k < |r| && r[k].bossId == id {
      var k :| 0 <= k < |ids| && ids[k] == id;
      assert r[k].bossId == id;
    }
    r
  }

  ghost function PixlList(t: Tables, chapterId: int): (r: seq<PixlSummary>)
    ensures |r| == |ChapterPixlIds(t, chapterId)|
    ensures forall k :: 0 <= k < |r| ==>
              var id := r[k].pixlId;
              id in ChapterPixlIds(t, chapterId)
              && r[k] == PixlSummary(id, t.pixls[id].name, t.pixls[id].ability, t.pixls[id].isOptional)
    ensures forall id :: id in ChapterPixlIds(t, chapterId) ==> exists k :: 0 <= k < |r| && r[k].pixlId == id
  {
    var ids := SortedIds(ChapterPixlIds(t, chapterId));
    var r := seq(|ids|, k requires 0 <= k < |ids| =>
                 var p := t.pixls[ids[k]];
                 PixlSummary(ids[k], p.name, p.ability, p.isOptional));
    forall id | id in ChapterPixlIds(t, chapterId) ensures exists k :: 0 <= k < |r| && r[k].pixlId == id {
      var k :| 0 <= k < |ids| && ids[k] == id;
      assert r[k].pixlId == id;
    }
    r
  }

  ghost function PlayableList(t: Tables, chapterId: int): (r: seq<PlayableSummary>)
    ensures |r| == |ChapterPlayableIds(t, chapterId)|
    ensures forall k :: 0 <= k < |r| ==>
              var id := r[k].characterId;
              id in ChapterPlayableIds(t, chapterId)
              && r[k] == PlayableSummary(id, t.characters[id].name, t.playableCharacters[id].specialAbility)
    ensures forall id :: id in ChapterPlayableIds(t, chapterId) ==>
              exists k :: 0 <= k < |r| && r[k].characterId == id
  {
    var ids := SortedIds(ChapterPlayableIds(t, chapterId));
    var r := seq(|ids|, k requires 0 <= k < |ids| =>
                 PlayableSummary(ids[k], t.characters[ids[k]].name, t.playableCharacters[ids[k]].specialAbility));
    forall id | id in ChapterPlayableIds(t, chapterId) ensures exists k :: 0 <= k < |r| && r[k].characterId == id {
      var k :| 0 <= k < |ids| && ids[k] == id;
      assert r[k].characterId == id;
    }
    r
  }

  /**
   * get_chapter_complete_info: a function of the database state, so it changes
   * nothing. A missing chapter is the only failure; each statistic is the
   * length of its list, which is the number of matching rows.
   */
  ghost function ChapterCompleteInfo(t: Tables, chapterId: int): (r: Result<ChapterInfo>)
    ensures r.Failure? <==> chapterId !in t.chapters
    ensures r.Failure? ==> r.error == ChapterNotFound(chapterId)
    ensures r.Success? ==>
      var info := r.value;
      var c := t.chapters[chapterId];
      && info.chapter == ChapterHeader(chapterId, c.name, c.worldNumber, c.description)
      && info.statistics.totalLocations == |info.locations| == |ChapterLocationIds(t, chapterId)|
      && info.statistics.totalBosses == |info.bosses| == |ChapterBossIds(t, chapterId)|
      && info.statistics.totalPixls == |info.pixls| == |ChapterPixlIds(t, chapterId)|
      && info.statistics.totalPlayableCharacters == |info.playableCharacters| == |ChapterPlayableIds(t, chapterId)|
  {
    if chapterId !in t.chapters then Failure(ChapterNotFound(chapterId))
    else
      var c := t.chapters[chapterId];
      var locations := LocationList(t, chapterId);
      var bosses := BossList(t, chapterId);
      var pixls := PixlList(t, chapterId);
      var playable := PlayableList(t, chapterId);
      Success(ChapterInfo(ChapterHeader(chapterId, c.name, c.worldNumber, c.description),
                          locations, bosses, pixls, playable,
                          ChapterStatistics(|locations|, |bosses|, |pixls|, |playable|)))
  }
}
