/**
 * The parts of api/complex_queries.py that compute something beyond a query:
 * the grouping of joined side-quest rows, the total of a location's statistics,
 * and the chapter summary with its missing-chapter branch.
 */
module ComplexQueries {
  import opened Models
  import StoredProcedures

  // ---------------------------------------------------------------------------
  // Side quests with their characters
  // ---------------------------------------------------------------------------

  /**
   * One row of the outer join of side quests with their location, chapter,
   * reward and characters; the joined columns are None where nothing matched.
   */
  datatype QuestRow = QuestRow(questId: int, questName: string, description: Option<string>,
                               startLocation: Option<string>, chapter: Option<string>, reward: Option<string>,
                               characterName: Option<string>, role: Option<QuestRole>)

  datatype QuestCharacterEntry = QuestCharacterEntry(name: string, role: Option<string>)

  datatype QuestDetails = QuestDetails(questId: int, name: string, description: Option<string>,
                                       startLocation: Option<string>, chapter: Option<string>,
                                       reward: Option<string>, characters: seq<QuestCharacterEntry>)

  /** Python truthiness of a nullable string: None and "" are false. */
  predicate TruthyName(s: Option<string>) {
    s.Some? && s.value != ""
  }

  predicate Appears(rows: seq<QuestRow>, q: int) {
    exists j :: 0 <= j < |rows| && rows[j].questId == q
  }

  /** The index of the first row of quest q. */
  function FirstIndex(rows: seq<QuestRow>, q: int): (k: nat)
    requires Appears(rows, q)
    ensures k < |rows| && rows[k].questId == q
    ensures forall j :: 0 <= j < k ==> rows[j].questId != q
  {
    var init := rows[..|rows| - 1];
    assert forall j :: 0 <= j < |init| ==> init[j] == rows[j];
    if Appears(init, q) then FirstIndex(init, q) else |rows| - 1
  }

  /** The distinct quest ids of the rows, in order of first appearance. */
  function QuestIds(rows: seq<QuestRow>): (ids: seq<int>)
    ensures forall a, b :: 0 <= a < b < |ids| ==> ids[a] != ids[b]
    ensures forall k :: 0 <= k < |ids| ==> Appears(rows, ids[k])
    ensures forall j :: 0 <= j < |rows| ==> rows[j].questId in ids
  {
    if rows == [] then []
    else
      var init := rows[..|rows| - 1];
      var q := rows[|rows| - 1].questId;
      assert forall j :: 0 <= j < |init| ==> init[j] == rows[j];
      var before := QuestIds(init);
      if q in before then before else before + [q]
  }

  /** The characters entry a row contributes: the role's value when a role is present. */
  function CharacterEntry(r: QuestRow): QuestCharacterEntry
    requires r.characterName.Some?
  {
    QuestCharacterEntry(r.characterName.value, if r.role.Some? then Some(r.role.value.Value()) else None)
  }

  /** The characters of quest q: one entry per row of q with a truthy character name, in row order. */
  function CharactersOf(rows: seq<QuestRow>, q: int): (cs: seq<QuestCharacterEntry>)
    ensures |cs| <= |rows|
  {
    if rows == [] then []
    else
      var r := rows[|rows| - 1];
      var before := CharactersOf(rows[..|rows| - 1], q);
      if r.questId == q && TruthyName(r.characterName) then before + [CharacterEntry(r)] else before
  }

  /** The dictionary entry for quest q once every row has been seen. */
  function Entry(rows: seq<QuestRow>, q: int): QuestDetails
    requires Appears(rows, q)
  {
    var first := rows[FirstIndex(rows, q)];
    QuestDetails(q, first.questName, first.description, first.startLocation, first.chapter, first.reward,
                 CharactersOf(rows, q))
  }

  /** The endpoint's result: one entry per distinct quest id, in order of first appearance. */
  function GroupByQuest(rows: seq<QuestRow>): seq<QuestDetails> {
    var ids := QuestIds(rows);
    seq(|ids|, k requires 0 <= k < |ids| => Entry(rows, ids[k]))
  }

  /** The entry created when quest q is seen for the first time, before its characters are appended. */
  function NewEntry(r: QuestRow): QuestDetails {
    QuestDetails(r.questId, r.questName, r.description, r.startLocation, r.chapter, r.reward, [])
  }

  /** What one more row changes in the quest ids, in where a quest appears, and in the other quests' entries. */
  lemma SnocFacts(rows: seq<QuestRow>, i: int)
    requires 0 <= i < |rows|
    ensures forall q :: Appears(rows[..i + 1], q) <==> Appears(rows[..i], q) || rows[i].questId == q
    ensures rows[i].questId in QuestIds(rows[..i]) <==> Appears(rows[..i], rows[i].questId)
    ensures QuestIds(rows[..i + 1]) == if rows[i].questId in QuestIds(rows[..i]) then QuestIds(rows[..i])
                                      else QuestIds(rows[..i]) + [rows[i].questId]
    ensures forall q :: q != rows[i].questId && Appears(rows[..i], q) ==> Entry(rows[..i + 1], q) == Entry(rows[..i], q)
  {
    var prefix := rows[..i + 1];
    assert prefix[..i] == rows[..i];
    forall q ensures Appears(prefix, q) <==> Appears(rows[..i], q) || rows[i].questId == q {
      if Appears(prefix, q) && rows[i].questId != q {
        var j :| 0 <= j < i + 1 && prefix[j].questId == q;
        assert rows[..i][j] == prefix[j];
      }
      if Appears(rows[..i], q) {
        var j :| 0 <= j < i && rows[..i][j].questId == q;
        assert prefix[j] == rows[..i][j];
      }
      if rows[i].questId == q {
        assert prefix[i].questId == q;
      }
    }
    if Appears(rows[..i], rows[i].questId) {
      var j :| 0 <= j < i && rows[..i][j].questId == rows[i].questId;
    }
  }

  /** The effect of row i on the entry of its own quest. */
  lemma GroupStep(rows: seq<QuestRow>, i: int)
    requires 0 <= i < |rows|
    ensures var prefix, r := rows[..i + 1], rows[i];
            var entry := if Appears(rows[..i], r.questId) then Entry(rows[..i], r.questId) else NewEntry(r);
            Appears(prefix, r.questId) &&
            Entry(prefix, r.questId) == if TruthyName(r.characterName)
                                        then entry.(characters := entry.characters + [CharacterEntry(r)])
                                        else entry
  {
    var prefix := rows[..i + 1];
    var q := rows[i].questId;
    assert prefix[..i] == rows[..i];
    assert prefix[i].questId == q;
    if !Appears(rows[..i], q) {
      CharactersAbsent(rows[..i], q);
    }
  }

  lemma {:induction false} CharactersAbsent(rows: seq<QuestRow>, q: int)
    requires !Appears(rows, q)
    ensures CharactersOf(rows, q) == []
  {
    if rows != [] {
      var init := rows[..|rows| - 1];
      assert forall j :: 0 <= j < |init| ==> init[j] == rows[j];
      CharactersAbsent(init, q);
    }
  }

  /**
   * get_side_quests_full_details' grouping loop: quests_dict keeps its keys in
   * insertion order (order) and maps each key to its entry (entries).
   */
  method SideQuestsFullDetails(rows: seq<QuestRow>) returns (quests: seq<QuestDetails>)
    ensures quests == GroupByQuest(rows)
  {
    var order: seq<int> := [];
    var entries: map<int, QuestDetails> := map[];
    for i := 0 to |rows|
      invariant order == QuestIds(rows[..i])
      invariant forall q :: q in entries <==> Appears(rows[..i], q)
      invariant forall q :: q in entries ==> entries[q] == Entry(rows[..i], q)
    {
      var r := rows[i];
      SnocFacts(rows, i);
      GroupStep(rows, i);
      ghost var before := entries;
      if r.questId !in entries {
        order := order + [r.questId];
        entries := entries[r.questId := NewEntry(r)];
      }
      assert entries[r.questId] == if Appears(rows[..i], r.questId) then Entry(rows[..i], r.questId) else NewEntry(r);
      if TruthyName(r.characterName) {
        var e := entries[r.questId];
        entries := entries[r.questId := e.(characters := e.characters + [CharacterEntry(r)])];
      }
      forall q | q in entries ensures entries[q] == Entry(rows[..i + 1], q) {
        if q != r.questId {
          assert q in before && Appears(rows[..i], q);
        }
      }
    }
    assert rows[..|rows|] == rows;
    quests := seq(|order|, k requires 0 <= k < |order| => entries[order[k]]);
    assert forall k :: 0 <= k < |order| ==> quests[k] == Entry(rows, order[k]);
  }

  /** The entries come in the order in which their quests first appear in the rows. */
  lemma {:induction false} QuestIdsByFirstAppearance(rows: seq<QuestRow>)
    ensures var ids := QuestIds(rows);
            forall a, b :: 0 <= a < b < |ids| ==> FirstIndex(rows, ids[a]) < FirstIndex(rows, ids[b])
  {
    if rows != [] {
      var init := rows[..|rows| - 1];
      var x := rows[|rows| - 1].questId;
      QuestIdsByFirstAppearance(init);
      var before := QuestIds(init);
      var ids := QuestIds(rows);
      assert ids == if x in before then before else before + [x];
      forall a, b | 0 <= a < b < |ids| ensures FirstIndex(rows, ids[a]) < FirstIndex(rows, ids[b]) {
        FirstIndexKept(rows, before[a]);
        if b < |before| {
          FirstIndexKept(rows, before[b]);
          assert FirstIndex(init, before[a]) < FirstIndex(init, before[b]);
        } else {
          FirstIndexNew(rows);
        }
      }
    }
  }

  /** A quest already seen keeps its first index when a row is added. */
  lemma FirstIndexKept(rows: seq<QuestRow>, q: int)
    requires rows != [] && q in QuestIds(rows[..|rows| - 1])
    ensures Appears(rows, q) && FirstIndex(rows, q) == FirstIndex(rows[..|rows| - 1], q) < |rows| - 1
  {
    var init := rows[..|rows| - 1];
    var k :| 0 <= k < |QuestIds(init)| && QuestIds(init)[k] == q;
    var j :| 0 <= j < |init| && init[j].questId == q;
    assert rows[j] == init[j];
  }

  /** A quest seen for the first time in the last row has that row as its first. */
  lemma FirstIndexNew(rows: seq<QuestRow>)
    requires rows != [] && rows[|rows| - 1].questId !in QuestIds(rows[..|rows| - 1])
    ensures Appears(rows, rows[|rows| - 1].questId) && FirstIndex(rows, rows[|rows| - 1].questId) == |rows| - 1
  {
    assert !Appears(rows[..|rows| - 1], rows[|rows| - 1].questId);
  }

  /** Exactly one entry per distinct quest id of the input. */
  lemma GroupedOncePerQuest(rows: seq<QuestRow>)
    ensures var quests := GroupByQuest(rows);
            && (forall a, b :: 0 <= a < b < |quests| ==> quests[a].questId != quests[b].questId)
            && (forall j :: 0 <= j < |rows| ==> exists k :: 0 <= k < |quests| && quests[k].questId == rows[j].questId)
  {
    var ids := QuestIds(rows);
    var quests := GroupByQuest(rows);
    forall j | 0 <= j < |rows| ensures exists k :: 0 <= k < |quests| && quests[k].questId == rows[j].questId {
      var k :| 0 <= k < |ids| && ids[k] == rows[j].questId;
      assert quests[k].questId == ids[k];
    }
  }

  /** An entry's fields other than its characters come from the first row of its quest. */
  lemma EntryFromFirstRow(rows: seq<QuestRow>, k: int)
    requires 0 <= k < |GroupByQuest(rows)|
    ensures var e := GroupByQuest(rows)[k];
            exists j :: 0 <= j < |rows| && rows[j].questId == e.questId
                        && (forall i :: 0 <= i < j ==> rows[i].questId != e.questId)
                        && e.(characters := []) == NewEntry(rows[j])
  {
    var q := QuestIds(rows)[k];
    var j := FirstIndex(rows, q);
    assert GroupByQuest(rows)[k] == Entry(rows, q);
    assert rows[j].questId == q;
  }

  /** A quest gets no characters exactly when none of its rows has a truthy character name. */
  lemma {:induction false} CharactersEmptyIff(rows: seq<QuestRow>, q: int)
    ensures CharactersOf(rows, q) == [] <==>
            forall j :: 0 <= j < |rows| && rows[j].questId == q ==> !TruthyName(rows[j].characterName)
  {
    if rows != [] {
      var init := rows[..|rows| - 1];
      assert forall j :: 0 <= j < |init| ==> init[j] == rows[j];
      CharactersEmptyIff(init, q);
    }
  }

  /** Every appended role is the value of a QuestRole member, or None when the row has no role. */
  lemma {:induction false} CharacterRoles(rows: seq<QuestRow>, q: int)
    ensures forall c :: c in CharactersOf(rows, q) ==>
              c.role.None? || c.role == Some("giver") || c.role == Some("target") || c.role == Some("helper")
  {
    if rows != [] {
      CharacterRoles(rows[..|rows| - 1], q);
    }
  }

  // ---------------------------------------------------------------------------
  // Location statistics
  // ---------------------------------------------------------------------------

  datatype LocationStatistics = LocationStatistics(objects: nat, blocks: nat, navigationObjects: nat,
                                                   obstacles: nat, switches: nat, totalInteractiveElements: nat)

  /** The statistics of get_locations_with_everything from the five distinct counts. */
  function Statistics(objects: nat, blocks: nat, navigationObjects: nat, obstacles: nat, switches: nat)
    : (s: LocationStatistics)
    ensures s.objects == objects && s.blocks == blocks && s.navigationObjects == navigationObjects
    ensures s.obstacles == obstacles && s.switches == switches
    ensures s.totalInteractiveElements >= objects && s.totalInteractiveElements >= blocks
    ensures s.totalInteractiveElements >= navigationObjects && s.totalInteractiveElements >= obstacles
    ensures s.totalInteractiveElements >= switches
    ensures s.totalInteractiveElements == 0 <==>
              objects == 0 && blocks == 0 && navigationObjects == 0 && obstacles == 0 && switches == 0
  {
    LocationStatistics(objects, blocks, navigationObjects, obstacles, switches,
                       objects + blocks + navigationObjects + obstacles + switches)
  }

  /** Adding one element of any kind adds one to the total. */
  lemma TotalCountsEachElement(objects: nat, blocks: nat, navigationObjects: nat, obstacles: nat, switches: nat)
    ensures Statistics(objects + 1, blocks, navigationObjects, obstacles, switches).totalInteractiveElements
            == Statistics(objects, blocks, navigationObjects, obstacles, switches).totalInteractiveElements + 1
    ensures Statistics(objects, blocks + 1, navigationObjects, obstacles, switches).totalInteractiveElements
            == Statistics(objects, blocks, navigationObjects, obstacles, switches).totalInteractiveElements + 1
    ensures Statistics(objects, blocks, navigationObjects + 1, obstacles, switches).totalInteractiveElements
            == Statistics(objects, blocks, navigationObjects, obstacles, switches).totalInteractiveElements + 1
    ensures Statistics(objects, blocks, navigationObjects, obstacles + 1, switches).totalInteractiveElements
            == Statistics(objects, blocks, navigationObjects, obstacles, switches).totalInteractiveElements + 1
    ensures Statistics(objects, blocks, navigationObjects, obstacles, switches + 1).totalInteractiveElements
            == Statistics(objects, blocks, navigationObjects, obstacles, switches).totalInteractiveElements + 1
  {
  }

  // ---------------------------------------------------------------------------
  // Chapter summary
  // ---------------------------------------------------------------------------

  datatype SummaryBoss = SummaryBoss(name: string, phaseCount: int, specialMechanics: Option<string>)

  datatype SummaryPlayable = SummaryPlayable(name: string, specialAbility: Option<string>)

  datatype SummaryPixl = SummaryPixl(name: string, ability: Option<string>, isOptional: bool)

  /** The body of get_chapter_summary; a missing chapter gives the error object with status 200. */
  datatype ChapterSummaryBody =
    | ErrorObject(error: string)
    | Summary(chapterId: int, name: string, worldNumber: int, description: Option<string>, locationCount: nat,
              bosses: seq<SummaryBoss>, playableCharactersUnlocked: seq<SummaryPlayable>,
              pixlsUnlocked: seq<SummaryPixl>)

  /** The boss columns get_chapter_summary selects. */
  function SummaryBosses(bosses: seq<StoredProcedures.BossSummary>): (r: seq<SummaryBoss>)
    ensures |r| == |bosses|
    ensures forall k :: 0 <= k < |r| ==> r[k].name == bosses[k].name && r[k].phaseCount == bosses[k].phaseCount
  {
    seq(|bosses|, k requires 0 <= k < |bosses| =>
        SummaryBoss(bosses[k].name, bosses[k].phaseCount, bosses[k].specialMechanics))
  }

  /** The playable character columns get_chapter_summary selects. */
  function SummaryPlayables(playable: seq<StoredProcedures.PlayableSummary>): (r: seq<SummaryPlayable>)
    ensures |r| == |playable|
    ensures forall k :: 0 <= k < |r| ==> r[k].name == playable[k].name
  {
    seq(|playable|, k requires 0 <= k < |playable| =>
        SummaryPlayable(playable[k].name, playable[k].specialAbility))
  }

  /** The pixl columns get_chapter_summary selects. */
  function SummaryPixls(pixls: seq<StoredProcedures.PixlSummary>): (r: seq<SummaryPixl>)
    ensures |r| == |pixls|
    ensures forall k :: 0 <= k < |r| ==> r[k].name == pixls[k].name
  {
    seq(|pixls|, k requires 0 <= k < |pixls| => SummaryPixl(pixls[k].name, pixls[k].ability, pixls[k].isOptional))
  }

  ghost function ChapterSummary(t: Tables, chapterId: int): (r: ChapterSummaryBody)
    ensures r.ErrorObject? <==> chapterId !in t.chapters
    ensures r.ErrorObject? ==> r == ErrorObject("Chapter not found")
    ensures r.Summary? ==>
      && r.chapterId == chapterId && r.name == t.chapters[chapterId].name
      && r.locationCount == |ChapterLocationIds(t, chapterId)|
      && |r.bosses| == |ChapterBossIds(t, chapterId)|
      && |r.playableCharactersUnlocked| == |ChapterPlayableIds(t, chapterId)|
      && |r.pixlsUnlocked| == |ChapterPixlIds(t, chapterId)|
  {
    if chapterId !in t.chapters then ErrorObject("Chapter not found")
    else
      var c := t.chapters[chapterId];
      Summary(chapterId, c.name, c.worldNumber, c.description, |ChapterLocationIds(t, chapterId)|,
              SummaryBosses(StoredProcedures.BossList(t, chapterId)),
              SummaryPlayables(StoredProcedures.PlayableList(t, chapterId)),
              SummaryPixls(StoredProcedures.PixlList(t, chapterId)))
  }

  /**
   * The summary and the stored procedure's complete info agree: both fail
   * exactly for a missing chapter, and otherwise report the same counts and
   * the same bosses, playable characters and pixls in the same order.
   */
  lemma SummaryAgreesWithCompleteInfo(t: Tables, chapterId: int)
    ensures ChapterSummary(t, chapterId).ErrorObject? <==> StoredProcedures.ChapterCompleteInfo(t, chapterId).Failure?
    ensures StoredProcedures.ChapterCompleteInfo(t, chapterId).Success? ==>
      var s, info := ChapterSummary(t, chapterId), StoredProcedures.ChapterCompleteInfo(t, chapterId).value;
      && s.locationCount == info.statistics.totalLocations
      && |s.bosses| == info.statistics.totalBosses
      && |s.playableCharactersUnlocked| == info.statistics.totalPlayableCharacters
      && |s.pixlsUnlocked| == info.statistics.totalPixls
      && (forall k :: 0 <= k < |s.bosses| ==> s.bosses[k].name == info.bosses[k].name)
      && (forall k :: 0 <= k < |s.pixlsUnlocked| ==> s.pixlsUnlocked[k].name == info.pixls[k].name)
      && (forall k :: 0 <= k < |s.playableCharactersUnlocked| ==>
            s.playableCharactersUnlocked[k].name == info.playableCharacters[k].name)
  {
  }
}
