/**
 * The HTTP layer of api/procedures.py: each request body is validated by its
 * schema before the procedure runs (an invalid body is answered with 422 and
 * reaches no procedure), and the procedure's result becomes the response.
 */
module Procedures {
  import opened Models
  import opened StoredProcedures

  // ---------------------------------------------------------------------------
  // Request schemas
  // ---------------------------------------------------------------------------

  datatype CreateEnemyRequest = CreateEnemyRequest(name: string, description: Option<string>, hp: int,
                                                   attack: int, defense: int, cardScore: int)

  datatype CreateBossRequest = CreateBossRequest(name: string, description: Option<string>, chapterId: int,
                                                 phaseCount: int, specialMechanics: Option<string>)

  datatype CreateQuestRequest = CreateQuestRequest(questName: string, description: Option<string>,
                                                   startLocationId: Option<int>, rewardItemId: Option<int>,
                                                   questGiverId: Option<int>, questTargetId: Option<int>,
                                                   questHelperIds: Option<seq<int>>)

  datatype ApplyStatusEffectRequest = ApplyStatusEffectRequest(characterId: int, statusId: int, durationSeconds: int)

  datatype PopulateLocationRequest = PopulateLocationRequest(locationId: int, blocks: seq<BlockConfig>)

  datatype TransferItemRequest = TransferItemRequest(fromBlockId: int, toBlockId: int)

  /** A name field with min_length=1 and max_length=100. */
  predicate ValidName(name: string) {
    1 <= |name| <= 100
  }

  predicate ValidEnemyRequest(request: CreateEnemyRequest) {
    ValidName(request.name) && request.hp > 0 && request.attack >= 0 && request.defense >= 0 && request.cardScore > 0
  }

  predicate ValidBossRequest(request: CreateBossRequest) {
    ValidName(request.name) && request.phaseCount > 0
  }

  predicate ValidQuestRequest(request: CreateQuestRequest) {
    ValidName(request.questName)
  }

  predicate ValidStatusRequest(request: ApplyStatusEffectRequest) {
    request.durationSeconds > 0
  }

  /** A body that passes CreateEnemyRequest passes every CHECK constraint of the enemies table. */
  lemma EnemyRequestMeetsTableChecks(request: CreateEnemyRequest, characterId: int)
    requires ValidEnemyRequest(request)
    ensures EnemyChecks(Enemy(characterId, request.hp, request.attack, request.defense, request.cardScore))
  {
  }

  /** The schema is stricter than the table: a card score of 0 is refused by the schema only. */
  lemma CardScoreZeroRefusedBySchemaOnly()
    ensures var request := CreateEnemyRequest("Goomba", None, 1, 0, 0, 0);
            && !ValidEnemyRequest(request)
            && EnemyChecks(Enemy(1, request.hp, request.attack, request.defense, request.cardScore))
  {
  }

  /** A body that passes CreateBossRequest passes the CHECK constraint of the bosses table. */
  lemma BossRequestMeetsTableChecks(request: CreateBossRequest, characterId: int)
    requires ValidBossRequest(request)
    ensures BossChecks(Boss(characterId, request.chapterId, request.phaseCount, request.specialMechanics))
  {
  }

  // ---------------------------------------------------------------------------
  // Responses
  // ---------------------------------------------------------------------------

  /**
   * What the client receives: the procedure's result, an HTTPException with its
   * status and the error, 422 for a body the schema refuses, or 500 for an
   * exception no handler catches.
   */
  datatype Response<+T> =
    | Ok(body: T)
    | HttpError(statusCode: int, detail: Error)
    | UnprocessableEntity
    | InternalServerError(exception: Exception)

  function StatusCode<T>(response: Response<T>): int {
    match response
    case Ok(_) => 200
    case HttpError(code, _) => code
    case UnprocessableEntity => 422
    case InternalServerError(_) => 500
  }

  /** `if not result["success"]: raise HTTPException(...)`, otherwise the result itself. */
  function Respond<T>(result: Result<T>, failureStatus: int): (response: Response<T>)
    ensures response.Ok? <==> result.Success?
    ensures response.Ok? ==> response.body == result.value
    ensures !response.Ok? ==> response.HttpError? && response.detail == result.error
                              && StatusCode(response) == failureStatus
  {
    match result
    case Success(v) => Ok(v)
    case Failure(e) => HttpError(failureStatus, e)
  }

  // ---------------------------------------------------------------------------
  // Endpoints
  // ---------------------------------------------------------------------------

  /** POST /procedures/create-enemy. With a valid body, only a taken name fails. */
  method CreateEnemy(db: Database, request: CreateEnemyRequest) returns (response: Response<EnemyCreated>)
    requires db.Valid()
    modifies db
    ensures db.Valid()
    ensures !ValidEnemyRequest(request) ==> response == UnprocessableEntity
    ensures response.Ok? <==> ValidEnemyRequest(request) && !CharacterNameTaken(old(db.tables.characters), request.name)
    ensures ValidEnemyRequest(request) && !response.Ok? ==> response == HttpError(400, IntegrityError)
    ensures !response.Ok? ==> db.tables == old(db.tables) && db.nextId == old(db.nextId)
    ensures response.Ok? ==>
      var c, e := response.body.characterId, response.body.enemyId;
      && c !in old(db.tables.characters) && e !in old(db.tables.enemies)
      && db.tables == old(db.tables).(
           characters := old(db.tables.characters)[c := Character(request.name, request.description)],
           enemies := old(db.tables.enemies)[e := Enemy(c, request.hp, request.attack, request.defense,
                                                        request.cardScore)])
  {
    if !ValidEnemyRequest(request) {
      return UnprocessableEntity;
    }
    var result := db.CreateEnemyWithCharacter(request.name, request.description, request.hp, request.attack,
                                              request.defense, request.cardScore);
    response := Respond(result, 400);
  }

  /** POST /procedures/create-boss. With a valid body, a missing chapter or a taken name fails. */
  method CreateBoss(db: Database, request: CreateBossRequest) returns (response: Response<BossCreated>)
    requires db.Valid()
    modifies db
    ensures db.Valid()
    ensures !ValidBossRequest(request) ==> response == UnprocessableEntity
    ensures ValidBossRequest(request) && request.chapterId !in old(db.tables.chapters) ==>
              response == HttpError(400, ChapterNotFound(request.chapterId))
    ensures response.Ok? <==> ValidBossRequest(request) && request.chapterId in old(db.tables.chapters)
                              && !CharacterNameTaken(old(db.tables.characters), request.name)
    ensures !response.Ok? ==> db.tables == old(db.tables) && db.nextId == old(db.nextId)
    ensures response.Ok? ==>
      var c, b := response.body.characterId, response.body.bossId;
      && c !in old(db.tables.characters) && b !in old(db.tables.bosses)
      && response.body.chapter == old(db.tables.chapters)[request.chapterId].name
      && db.tables == old(db.tables).(
           characters := old(db.tables.characters)[c := Character(request.name, request.description)],
           bosses := old(db.tables.bosses)[b := Boss(c, request.chapterId, request.phaseCount,
                                                     request.specialMechanics)])
  {
    if !ValidBossRequest(request) {
      return UnprocessableEntity;
    }
    var result := db.CreateBossWithCharacter(request.name, request.description, request.chapterId,
                                             request.phaseCount, request.specialMechanics);
    response := Respond(result, 400);
  }

  /** quest_helper_ids: None and [] both mean no helpers. */
  function HelperIds(request: CreateQuestRequest): seq<int> {
    if request.questHelperIds.Some? then request.questHelperIds.value else []
  }

  /**
   * POST /procedures/create-quest over the procedure as written: a quest with a
   * giver, target or helper that exists is answered with 500 and not kept.
   */
  method CreateQuest(db: Database, request: CreateQuestRequest) returns (response: Response<QuestCreated>)
    requires db.Valid()
    modifies db
    ensures db.Valid()
    ensures !ValidQuestRequest(request) ==> response == UnprocessableEntity
    ensures ValidQuestRequest(request) && response.Ok? ==>
              ResolvedRoles(old(db.tables.characters), request.questGiverId, request.questTargetId,
                            HelperIds(request)) == []
    ensures ValidQuestRequest(request) && QuestReferencesResolve(old(db.tables), request.startLocationId,
                                                                 request.rewardItemId)
            && !QuestNameTaken(old(db.tables.sideQuests), request.questName) ==>
              (response.InternalServerError? <==>
                 ResolvedRoles(old(db.tables.characters), request.questGiverId, request.questTargetId,
                               HelperIds(request)) != [])
    ensures response.HttpError? ==> StatusCode(response) == 400
    ensures !response.Ok? ==> db.tables == old(db.tables) && db.nextId == old(db.nextId)
    ensures response.Ok? ==>
      var q := response.body.questId;
      && q !in old(db.tables.sideQuests)
      && response.body == QuestCreated(q, request.questName, [])
      && db.tables == old(db.tables).(sideQuests := old(db.tables.sideQuests)[q := SideQuest(
           request.questName, request.description, request.startLocationId, request.rewardItemId)])
  {
    if !ValidQuestRequest(request) {
      return UnprocessableEntity;
    }
    ghost var characters := db.tables.characters;
    RaisesIffSomeRoleResolves(characters, request.questGiverId, request.questTargetId, HelperIds(request));
    var raising := db.CreateSideQuestWithCharacters(request.questName, request.description, request.startLocationId,
                                                    request.rewardItemId, request.questGiverId, request.questTargetId,
                                                    HelperIds(request));
    match raising
    case Raised(e) => response := InternalServerError(e);
    case Returned(result) => response := Respond(result, 400);
  }

  /** POST /procedures/create-quest over the corrected procedure. */
  method CreateQuestIntended(db: Database, request: CreateQuestRequest) returns (response: Response<QuestCreated>)
    requires db.Valid()
    modifies db
    ensures db.Valid()
    ensures !ValidQuestRequest(request) ==> response == UnprocessableEntity
    ensures ValidQuestRequest(request) ==> !response.InternalServerError? && !response.UnprocessableEntity?
    ensures response.HttpError? ==> StatusCode(response) == 400
    ensures response.Ok? <==>
              && ValidQuestRequest(request)
              && QuestReferencesResolve(old(db.tables), request.startLocationId, request.rewardItemId)
              && !QuestNameTaken(old(db.tables.sideQuests), request.questName)
              && DistinctIds(ResolvedRoles(old(db.tables.characters), request.questGiverId, request.questTargetId,
                                           HelperIds(request)))
    ensures !response.Ok? ==> db.tables == old(db.tables) && db.nextId == old(db.nextId)
    ensures response.Ok? ==>
      var q := response.body.questId;
      var roles := ResolvedRoles(old(db.tables.characters), request.questGiverId, request.questTargetId,
                                 HelperIds(request));
      && q !in old(db.tables.sideQuests)
      && response.body == QuestCreated(q, request.questName, AddedCharacters(old(db.tables.characters), roles))
      && db.tables == old(db.tables).(
           sideQuests := old(db.tables.sideQuests)[q := SideQuest(request.questName, request.description,
                                                                  request.startLocationId, request.rewardItemId)],
           questCharacters := old(db.tables.questCharacters) + RoleRows(q, roles))
  {
    if !ValidQuestRequest(request) {
      return UnprocessableEntity;
    }
    var result := db.CreateSideQuestWithCharactersIntended(request.questName, request.description,
                                                           request.startLocationId, request.rewardItemId,
                                                           request.questGiverId, request.questTargetId,
                                                           HelperIds(request));
    response := Respond(result, 400);
  }

  /**
   * POST /procedures/apply-status-effect. The positive duration the schema
   * demands makes every applied effect expire strictly after it is applied.
   */
  method ApplyStatusEffect(db: Database, request: ApplyStatusEffectRequest, now: int)
    returns (response: Response<StatusApplied>)
    requires db.Valid()
    modifies db
    ensures db.Valid()
    ensures !ValidStatusRequest(request) ==> response == UnprocessableEntity
    ensures ValidStatusRequest(request) && request.characterId !in old(db.tables.characters) ==>
              response == HttpError(400, CharacterNotFound(request.characterId))
    ensures ValidStatusRequest(request) && request.characterId in old(db.tables.characters)
            && request.statusId !in old(db.tables.statusEffects) ==>
              response == HttpError(400, StatusEffectNotFound(request.statusId))
    ensures response.Ok? <==> ValidStatusRequest(request) && request.characterId in old(db.tables.characters)
                              && request.statusId in old(db.tables.statusEffects)
    ensures !response.Ok? ==> db.tables == old(db.tables) && db.nextId == old(db.nextId)
    ensures response.Ok? ==>
      var key := (request.characterId, request.statusId);
      && response.body.appliedAt == now < response.body.expiresAt == now + request.durationSeconds
      && key in db.tables.characterStatusEffects
      && db.tables.characterStatusEffects[key].expiresAt == response.body.expiresAt
      && db.tables == old(db.tables).(characterStatusEffects :=
                                        old(db.tables.characterStatusEffects)[key := db.tables.characterStatusEffects[key]])
  {
    if !ValidStatusRequest(request) {
      return UnprocessableEntity;
    }
    var result := db.ApplyStatusEffectToCharacter(request.characterId, request.statusId, request.durationSeconds, now);
    response := Respond(result, 400);
  }

  /** POST /procedures/populate-location: the configs are handed over in request order. */
  method PopulateLocation(db: Database, request: PopulateLocationRequest)
    returns (response: Response<LocationPopulated>)
    requires db.Valid()
    modifies db
    ensures db.Valid()
    ensures request.locationId !in old(db.tables.locations) ==>
              response == HttpError(400, LocationNotFound(request.locationId))
    ensures !response.Ok? ==> response.HttpError? && StatusCode(response) == 400
    ensures response.Ok? <==> request.locationId in old(db.tables.locations)
                              && ReferencedItemIds(request.blocks) <= old(db.tables.items).Keys
                              && BlockTypesValid(request.blocks)
    ensures !response.Ok? ==> db.tables == old(db.tables) && db.nextId == old(db.nextId)
    ensures response.Ok? ==>
      && response.body.blocksCreated == |request.blocks| == |response.body.blocks|
      && db.tables == old(db.tables).(blocks := old(db.tables.blocks)
                                                + NewBlocks(request.locationId, old(db.nextId), request.blocks))
  {
    var result := db.PopulateLocationWithBlocks(request.locationId, request.blocks);
    response := Respond(result, 400);
  }

  /** GET /procedures/chapter-info/{chapter_id}: 404 exactly for a missing chapter. */
  ghost function ChapterInfo(t: Tables, chapterId: int): (response: Response<StoredProcedures.ChapterInfo>)
    ensures StatusCode(response) == 404 <==> chapterId !in t.chapters
    ensures StatusCode(response) == 404 ==> response == HttpError(404, ChapterNotFound(chapterId))
    ensures StatusCode(response) != 404 ==> response.Ok? && Success(response.body) == ChapterCompleteInfo(t, chapterId)
  {
    Respond(ChapterCompleteInfo(t, chapterId), 404)
  }

  /** POST /procedures/transfer-item. */
  method TransferItem(db: Database, request: TransferItemRequest) returns (response: Response<ItemTransferred>)
    requires db.Valid()
    modifies db
    ensures db.Valid()
    ensures !response.Ok? ==> response.HttpError? && StatusCode(response) == 400
    ensures response.Ok? <==> request.fromBlockId in old(db.tables.blocks) && request.toBlockId in old(db.tables.blocks)
                              && Truthy(old(db.tables.blocks)[request.fromBlockId].containsItemId)
    ensures !response.Ok? ==> db.tables == old(db.tables) && db.nextId == old(db.nextId)
    ensures response.Ok? ==>
      && response.body.itemId == old(db.tables.blocks)[request.fromBlockId].containsItemId.value
      && request.toBlockId in db.tables.blocks
      && db.tables.blocks[request.toBlockId].containsItemId == Some(response.body.itemId)
      && request.fromBlockId in db.tables.blocks
      && (request.fromBlockId != request.toBlockId ==> db.tables.blocks[request.fromBlockId].containsItemId == None)
  {
    var result := db.TransferItemBetweenBlocks(request.fromBlockId, request.toBlockId);
    response := Respond(result, 400);
  }
}
