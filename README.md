# Paper Mario backend: the stored procedures, modelled and verified in Dafny

The backend is a FastAPI service over a SQLAlchemy database of Paper Mario
characters, chapters, locations, items, enemies, bosses, status effects,
blocks and side quests. Its logic sits in seven "stored procedures"
(`StoredProcedures` in `stored_procedures.py`). Each one is a short transaction
that validates references, adds or updates rows, and commits or rolls back.
Three pieces of the HTTP layer are modelled too:

- the grouping loop of the side-quest report and two other computed fields in `api/complex_queries.py`;
- the request schemas in `api/procedures.py`;
- how `api/procedures.py` maps each procedure result to an HTTP response.

The project has four modules:

- `models.dfy` (`Models`): the rows of each table and the `Tables` snapshot, one map per table. The two join tables are keyed by their composite keys. The module also states the declared constraints the procedures can break, as `Consistent`, and the id allocator's invariant, as `IdsBelow`. Python's truthiness of an optional id is `Truthy`: `None` and `0` are false.
- `stored_procedures.dfy` (`StoredProcedures`): a `Database` class with the current `tables` and the next generated id.
  - Each write procedure is a method. A flush that obtains an id is a step method. It refuses a row that breaks a constraint and then leaves the state as it was. A refused commit restores the state saved when the transaction began (`Rollback`).
  - Each procedure's `ensures` gives its result and its whole new state in terms of the old state, including every failure path.
  - `get_chapter_complete_info` only reads, so it is a function of the tables.
- `complex_queries.dfy` (`ComplexQueries`):
  - `SideQuestsFullDetails` is the grouping loop. It models a Python dict as a key order plus a map, and it is proved equal to the reference function `GroupByQuest`.
  - Lemmas about `GroupByQuest`: one entry per quest in first-appearance order, fields taken from the first row, characters and roles.
  - The location statistics total, and the chapter summary with its error object for a missing chapter.
- `procedures.dfy` (`Procedures`): the request schemas as validity predicates, and `Respond`, which maps a result to 200 or an error status. Each endpoint is a method over a `Database`. An invalid body gets 422 and reaches no procedure.

Time is a parameter `now`, in whole seconds. A constraint violation is the error `IntegrityError`, standing for the `SQLAlchemyError` text.

## Model

| member | source | states |
|---|---|---|
| Models.ParseBlockTypeExact | paper-mario-backend/models/blocks_containers.py:8-13 | a block_type string is accepted exactly when it is the value of one of the four `BlockType` members (movable, breakable, save, star), and each value maps back to its own member |
| Models.InsertCharacter | paper-mario-backend/models/characters.py:16 | adding a character under an unused id keeps the database consistent if and only if no existing character has that name |
| Models.InsertQuest | paper-mario-backend/models/side_quests.py:24 | adding a side quest under an unused id keeps the database consistent if and only if no existing quest has that name |
| Models.InsertEnemy | paper-mario-backend/models/enemies.py:33-36 | adding an enemy row keeps the database consistent if and only if hp > 0, attack >= 0, defense >= 0 and card_score >= 0 |
| Models.InsertBoss | paper-mario-backend/models/bosses.py:37 | adding a boss row keeps the database consistent if and only if phase_count > 0 |
| Models.BlocksGrown | paper-mario-backend/models/blocks_containers.py:30-34 | no declared constraint involves the contents of a block, including its nullable contains_item_id: any blocks table whose ids stay below the allocator keeps the database consistent |
| Models.SortedIdsAscending | paper-mario-backend/stored_procedures.py:397-417 | the order in which the model lists rows that a query returns without ORDER BY is strictly ascending by id |
| StoredProcedures.HelperRoles | paper-mario-backend/stored_procedures.py:209-221 | the helper rows kept are exactly the listed helper ids that name characters, each tagged helper, with no row for an unknown id |
| StoredProcedures.ResolvedRoles | paper-mario-backend/stored_procedures.py:180-221 | every quest_character row the procedure means to add names an existing character |
| StoredProcedures.RaisesIffSomeRoleResolves | paper-mario-backend/stored_procedures.py:181-221 | as written, the procedure raises exactly when the intended procedure would add at least one quest character |
| StoredProcedures.GiverRaisesAttributeError | paper-mario-backend/stored_procedures.py:189 | with character 1 present and giver id 1, the as-written tagging raises AttributeError on GIVER, while the intended rows are [(1, giver)] |
| StoredProcedures.PendingRoles | paper-mario-backend/stored_procedures.py:180-221 | the giver, target and helper steps compute exactly the intended rows: giver, then target, then each helper in list order |
| StoredProcedures.RoleRows | paper-mario-backend/models/side_quests.py:61-70 | the quest_character rows are keyed (quest_id, character_id) for the new quest only, and have a key for a character exactly when some role names it; with distinct characters, each key holds its role |
| StoredProcedures.NewBlocks | paper-mario-backend/stored_procedures.py:357-370 | a batch adds exactly one block per config, with ids firstId to firstId+n-1; config k becomes block firstId+k, with the given location, its parsed type, its item and its properties |
| StoredProcedures.BatchRows | paper-mario-backend/stored_procedures.py:357-370 | the per-block loop succeeds if and only if every block_type is a BlockType value, and then produces exactly `NewBlocks` |
| StoredProcedures.Database.FlushCharacter | paper-mario-backend/stored_procedures.py:41-46 | a new character gets the next id; the flush fails if and only if the name is taken, and then nothing changes |
| StoredProcedures.Database.FlushEnemy | paper-mario-backend/stored_procedures.py:48-57 | a new enemy row is kept if and only if it meets the enemies table's CHECK constraints, and otherwise nothing changes |
| StoredProcedures.Database.FlushBoss | paper-mario-backend/stored_procedures.py:107-114 | a new boss row is kept if and only if phase_count > 0, and otherwise nothing changes |
| StoredProcedures.Database.FlushQuest | paper-mario-backend/stored_procedures.py:169-176 | a new quest gets the next id; the flush fails if and only if the quest name is taken, and then nothing changes |
| StoredProcedures.Database.FlushQuestCharacters | paper-mario-backend/stored_procedures.py:223 | the commit adds exactly the quest's rows to quest_character and changes nothing else |
| StoredProcedures.Database.Rollback | paper-mario-backend/stored_procedures.py:67 | db.rollback() restores the tables and the allocator saved when the transaction began |
| StoredProcedures.Database.CreateEnemyWithCharacter | paper-mario-backend/stored_procedures.py:20-72 | succeeds if and only if the name is free and the stats meet the CHECK constraints. On success exactly one character and one enemy are added, and the enemy references the new character. On failure no table changes |
| StoredProcedures.Database.CreateBossWithCharacter | paper-mario-backend/stored_procedures.py:75-130 | a missing chapter fails with ChapterNotFound and nothing inserted. Otherwise it succeeds if and only if the name is free and phase_count > 0, adding one character and one boss of that chapter and reporting the chapter's name. Any failure leaves every table unchanged |
| StoredProcedures.Database.CreateSideQuestWithCharacters | paper-mario-backend/stored_procedures.py:132-239 | models the code as written. An unresolved truthy location and then item fail, and a taken quest name fails. Otherwise the first giver, target or helper that names a character raises AttributeError, so nothing is kept. Only a quest none of whose role ids resolves is created, with no characters |
| StoredProcedures.Database.CreateSideQuestWithCharactersIntended | paper-mario-backend/stored_procedures.py:132-239 | the corrected procedure, with the same reference checks. It succeeds if and only if the references resolve, the name is free and no character is named twice. It then adds exactly one quest and one quest_character row per resolving id, skipping ids that do not resolve, and reports the added names with their roles in order |
| StoredProcedures.Database.ApplyStatusEffectToCharacter | paper-mario-backend/stored_procedures.py:241-315 | a missing character fails first and a missing status second, both with no change. Otherwise the (character, status) row is upserted. An existing row only gets expires_at = now + duration and keeps applied_at, with action updated. A new row gets applied_at = now and that expiry, with action applied. Nothing else changes |
| StoredProcedures.Database.FlushBlocks | paper-mario-backend/stored_procedures.py:355-372 | the batch is written if and only if every block_type is valid: exactly `NewBlocks` at fresh ids, with the allocator advanced by the batch size. Otherwise nothing changes |
| StoredProcedures.Database.PopulateLocationWithBlocks | paper-mario-backend/stored_procedures.py:317-388 | a missing location fails; otherwise any truthy contains_item_id that names no item fails with exactly the set of such ids, inserting nothing. It succeeds if and only if the location and all items exist and every block_type is valid. Then it inserts exactly one block per config, in config order, at that location, reporting the location name, blocks_created = the number of configs, and each block's id, type and item |
| StoredProcedures.Database.TransferItemBetweenBlocks | paper-mario-backend/stored_procedures.py:471-530 | a missing source, then a missing destination, then a source without a truthy item fail with nothing changed. On success the destination holds the item, the source holds None unless it is the destination, and a transfer from a block to itself leaves it unchanged. Other blocks and tables are unchanged, and the item name falls back to "Unknown" |
| StoredProcedures.LocationList | paper-mario-backend/stored_procedures.py:397-399 | one entry per location of the chapter, each with that location's id, name and type |
| StoredProcedures.BossList | paper-mario-backend/stored_procedures.py:401-403 | one entry per boss of the chapter that joins to a character, with the character's name and the boss's phase count and mechanics |
| StoredProcedures.PixlList | paper-mario-backend/stored_procedures.py:405-407 | one entry per pixl unlocked in the chapter, with its fields |
| StoredProcedures.PlayableList | paper-mario-backend/stored_procedures.py:409-411 | one entry per playable character unlocked in the chapter that joins to a character, with the character's name |
| StoredProcedures.ChapterCompleteInfo | paper-mario-backend/stored_procedures.py:390-469 | reads only. It fails if and only if the chapter is missing, and otherwise reports the chapter's header. Each statistic equals the length of its list and the number of matching rows |
| ComplexQueries.FirstIndex | paper-mario-backend/api/complex_queries.py:182-184 | the index of the first row of a quest: a row of that quest, with no earlier row of that quest |
| ComplexQueries.QuestIds | paper-mario-backend/api/complex_queries.py:182-193 | the dictionary's keys are distinct, each key is a quest id of some row, and every row's quest id is a key |
| ComplexQueries.SideQuestsFullDetails | paper-mario-backend/api/complex_queries.py:181-201 | the loop that fills quests_dict, returning its values in insertion order, computes exactly `GroupByQuest` |
| ComplexQueries.QuestIdsByFirstAppearance | paper-mario-backend/api/complex_queries.py:182-201 | the entries are ordered by the first appearance of their quest in the rows |
| ComplexQueries.GroupedOncePerQuest | paper-mario-backend/api/complex_queries.py:182-201 | the result has exactly one entry per distinct quest_id of the rows |
| ComplexQueries.EntryFromFirstRow | paper-mario-backend/api/complex_queries.py:184-193 | an entry's quest id, name, description, start_location, chapter and reward are those of the first row of its quest |
| ComplexQueries.CharactersEmptyIff | paper-mario-backend/api/complex_queries.py:195-199 | a quest's character list is empty if and only if none of its rows has a truthy character name |
| ComplexQueries.CharacterRoles | paper-mario-backend/api/complex_queries.py:198 | every appended role is None or the value of a QuestRole member (giver, target or helper) |
| ComplexQueries.Statistics | paper-mario-backend/api/complex_queries.py:254-263 | the statistics keep the five counts, and the total is at least each count and is zero if and only if all five counts are zero |
| ComplexQueries.TotalCountsEachElement | paper-mario-backend/api/complex_queries.py:260-263 | one more object, block, navigation object, obstacle or switch raises the total by exactly one |
| ComplexQueries.SummaryBosses | paper-mario-backend/api/complex_queries.py:321-327 | one boss entry per boss, with its name and phase count |
| ComplexQueries.SummaryPlayables | paper-mario-backend/api/complex_queries.py:329-334 | one entry per playable character, with its name |
| ComplexQueries.SummaryPixls | paper-mario-backend/api/complex_queries.py:336-343 | one entry per pixl, with its name |
| ComplexQueries.ChapterSummary | paper-mario-backend/api/complex_queries.py:268-344 | a missing chapter gives exactly the error object `{"error": "Chapter not found"}`. Otherwise the summary has the chapter's id and name, location_count is the number of its locations, and one entry per boss, playable character and pixl |
| ComplexQueries.SummaryAgreesWithCompleteInfo | paper-mario-backend/api/complex_queries.py:280-344 | the summary and get_chapter_complete_info both fail exactly for a missing chapter, and otherwise agree on the location count and on the bosses, playable characters and pixls, name by name in the same order |
| Procedures.EnemyRequestMeetsTableChecks | paper-mario-backend/api/procedures.py:14-20 | a body valid for CreateEnemyRequest meets every CHECK constraint of the enemies table |
| Procedures.CardScoreZeroRefusedBySchemaOnly | paper-mario-backend/api/procedures.py:20 | card_score > 0 is stricter than the table's card_score >= 0: a card score of 0 is refused by the schema only |
| Procedures.BossRequestMeetsTableChecks | paper-mario-backend/api/procedures.py:23-28 | a body valid for CreateBossRequest meets the CHECK constraint of the bosses table |
| Procedures.Respond | paper-mario-backend/api/procedures.py:85-91 | a successful result is returned unchanged with status 200; a failed one becomes an HTTPException with the given status and the result's error as its detail |
| Procedures.CreateEnemy | paper-mario-backend/api/procedures.py:64-91 | an invalid body gets 422. With a valid body, the endpoint succeeds if and only if the name is free; otherwise it gets 400 with the error and nothing changes |
| Procedures.CreateBoss | paper-mario-backend/api/procedures.py:94-119 | an invalid body gets 422. A missing chapter gets 400 with ChapterNotFound. The endpoint succeeds if and only if the chapter exists and the name is free |
| Procedures.CreateQuest | paper-mario-backend/api/procedures.py:122-149 | an invalid body gets 422. Over the procedure as written, a quest that passes the checks gets 500 if and only if one of its role ids resolves; a success has no characters |
| Procedures.CreateQuestIntended | paper-mario-backend/api/procedures.py:122-149 | over the corrected procedure, a valid body never gets 500, and the endpoint succeeds if and only if the corrected procedure does; every failure is 400 |
| Procedures.ApplyStatusEffect | paper-mario-backend/api/procedures.py:152-175 | an invalid body gets 422, and a missing character or status gets 400. A success reports applied_at = now < expires_at = now + duration, and the stored row has that expiry |
| Procedures.PopulateLocation | paper-mario-backend/api/procedures.py:178-202 | the configs are passed in request order; every failure is 400 with nothing changed; a success reports one block per config |
| Procedures.ChapterInfo | paper-mario-backend/api/procedures.py:205-220 | a missing chapter gets 404 with ChapterNotFound, never 400; otherwise the procedure's result is returned unchanged |
| Procedures.TransferItem | paper-mario-backend/api/procedures.py:223-245 | every failure is 400 with nothing changed; on success the destination holds the item and the source holds None unless it is the destination |

## Left out

- SQLAlchemy itself is not modelled: the session, the identity map, lazy loading, and the SQL text of joins and aggregations. Query results are stated over the table maps. The transaction is the commit-or-rollback rule over the saved state.
- Enum coercion differs from SQLAlchemy. An unknown block_type string is refused when its block is flushed, so the one rule "block_type is a BlockType value" is kept. SQLAlchemy's `Enum` may instead store an unknown string unvalidated on SQLite.
- Error strings and messages, such as "Location 3 not found", `str(e)` and the `message` fields, are left out; each failure is an `Error` value. A constraint violation is the single value `IntegrityError`.
- Wall-clock time and ISO formatting are left out: `now` is an integer parameter, and `timedelta` overflow is not modelled.
- One shared id allocator serves every table. The model promises only that new ids are fresh, not the database's per-table sequences.
- Queries without ORDER BY return rows in an order the database chooses; the model fixes ascending ids (`SortedIds`).
- FlushBlocks: the model writes the batch after the per-block loop rather than at each flush. This is the same final state, because an abandoned batch is rolled back.
- CreateSideQuestWithCharacters models the escaping AttributeError as "nothing kept". After the exception, `get_db` closes the session without a commit. The uncommitted work is discarded at that point, not by an explicit rollback.
- ON DELETE CASCADE and SET NULL, foreign-key enforcement, and concurrent requests racing on the same (character, status) pair are left out.
- The other computed fields of `api/complex_queries.py` are not modelled beyond the statistics total: the location statistics take the five distinct-id counts as inputs, not the outer-join query that computes them.
- The per-entity CRUD routers, the database views and their schemas, the seed scripts, and the app and configuration wiring are not part of this model.
- ChapterCompleteInfo: the SQLAlchemyError handler around these read-only queries is not modelled, because no query raises in the model.
- A character is appended only when `character_name` is truthy (`if r.character_name:`). This excludes the empty string as well as NULL, so the model follows the code rather than "non-null".

## Findings

| source | as written | input that shows it | evidently intended | confidence | as-written member | corrected member |
|---|---|---|---|---|---|---|
| paper-mario-backend/stored_procedures.py:189 | the GIVER, TARGET and HELPER role members (also at lines 203 and 218) are not members of `QuestRole`, which defines only `giver`, `target` and `helper` (models/side_quests.py:8-13). Every side quest whose giver, target or helper id names a character raises AttributeError, which the `SQLAlchemyError` handler does not catch | characters {1: "Luigi"}, quest_giver_id = 1: the procedure raises on GIVER, the quest is not kept, and the endpoint answers 500 | tag the rows with `QuestRole.giver`, `QuestRole.target` and `QuestRole.helper`, adding one quest_character row per resolving id | not executed | StoredProcedures.Database.CreateSideQuestWithCharacters, StoredProcedures.RaisesIffSomeRoleResolves, StoredProcedures.GiverRaisesAttributeError | StoredProcedures.Database.CreateSideQuestWithCharactersIntended |
