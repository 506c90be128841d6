/**
 * `LearningRepositoryImpl` (LearningRepository.kt): corrections and learned
 * preferences stored in their own tables, with the four entity/domain mappers.
 */
module LearningRepositories {
  import opened Nullable
  import opened Seqs
  import opened Tables
  import opened Domain
  import opened Entities
  import opened Daos

  /** `Correction.toEntity()`. */
  function CorrectionToEntity(c: Correction): CorrectionEntity {
    CorrectionEntity(c.id, c.originalResponse, c.correctedResponse, c.context, c.timestamp)
  }

  /** `CorrectionEntity.toDomain()`: the inverse of `CorrectionToEntity`. */
  function CorrectionToDomain(e: CorrectionEntity): (r: Correction)
    ensures CorrectionToEntity(r) == e
  {
    Correction(e.id, e.originalResponse, e.correctedResponse, e.context, e.timestamp)
  }

  /** Every correction survives the trip to the table and back unchanged. */
  lemma CorrectionRoundTrip(c: Correction)
    ensures CorrectionToDomain(CorrectionToEntity(c)) == c
  {
  }

  /** `LearnedPreference.toEntity()`, stamped with the write time `now`. */
  function PreferenceToEntity(p: LearnedPreference, now: int): PreferenceEntity {
    PreferenceEntity(p.id, CategoryName(p.category), p.key, p.value, p.confidence, p.learnedAt, now)
  }

  /**
   * `PreferenceEntity.toDomain()`; `None` stands for the exception
   * `PreferenceCategory.valueOf` throws on an unknown category name.
   */
  function PreferenceToDomain(e: PreferenceEntity): (r: Option<LearnedPreference>)
    ensures r.Some? <==> exists c :: CategoryName(c) == e.category
    ensures r.Some? ==> PreferenceToEntity(r.value, e.updatedAt) == e
  {
    match CategoryValueOf(e.category)
    case None => None
    case Some(category) => Some(LearnedPreference(e.id, category, e.key, e.value, e.confidence, e.learnedAt))
  }

  /** A preference comes back unchanged whatever write time was stamped on its row. */
  lemma PreferenceRoundTrip(p: LearnedPreference, now: int)
    ensures PreferenceToDomain(PreferenceToEntity(p, now)) == Some(p)
  {
  }

  /** `entities.map { it.toDomain() }` for corrections. */
  function CorrectionsToDomain(es: seq<CorrectionEntity>): (r: seq<Correction>)
    ensures |r| == |es|
    ensures forall i :: 0 <= i < |es| ==> CorrectionToEntity(r[i]) == es[i]
  {
    if es == [] then [] else [CorrectionToDomain(es[0])] + CorrectionsToDomain(es[1..])
  }

  /** `entities.map { it.toDomain() }` for preferences; fails when one row fails. */
  function PreferencesToDomain(es: seq<PreferenceEntity>): (r: Option<seq<LearnedPreference>>)
    ensures r.Some? <==> forall i :: 0 <= i < |es| ==> PreferenceToDomain(es[i]).Some?
    ensures r.Some? ==> |r.value| == |es| && forall i :: 0 <= i < |es| ==> PreferenceToDomain(es[i]) == Some(r.value[i])
  {
    MapAll(es, PreferenceToDomain)
  }

  /** Every stored category column names a category, as it does for rows this repository wrote. */
  ghost predicate PreferencesReadable(rows: seq<PreferenceEntity>) {
    forall e :: e in rows ==> PreferenceToDomain(e).Some?
  }

  /** A reordering of readable rows converts row by row. */
  lemma ReadableRowsConvert(rows: seq<PreferenceEntity>, all: seq<PreferenceEntity>)
    requires PreferencesReadable(rows) && multiset(all) == multiset(rows)
    ensures forall i :: 0 <= i < |all| ==> PreferenceToDomain(all[i]).Some?
  {
    forall i | 0 <= i < |all| ensures PreferenceToDomain(all[i]).Some? {
      assert all[i] in multiset(rows);
    }
  }

  /**
   * Converting rows sorted most confident first gives preferences in the same order,
   * each of which converts back to its row.
   */
  lemma ConvertedInOrder(all: seq<PreferenceEntity>, ps: seq<LearnedPreference>)
    requires SortedBy(all, PreferenceMostConfidentFirst)
    requires |ps| == |all| && forall i :: 0 <= i < |all| ==> PreferenceToDomain(all[i]) == Some(ps[i])
    ensures forall i :: 0 <= i < |ps| ==> PreferenceToEntity(ps[i], all[i].updatedAt) == all[i]
    ensures forall i, j :: 0 <= i < j < |ps| ==> ps[i].confidence >= ps[j].confidence
  {
    forall i, j | 0 <= i < j < |ps| ensures ps[i].confidence >= ps[j].confidence {
      assert PreferenceToDomain(all[i]) == Some(ps[i]) && PreferenceToDomain(all[j]) == Some(ps[j]);
      assert PreferenceMostConfidentFirst(all[i]) <= PreferenceMostConfidentFirst(all[j]);
    }
  }

  const DEFAULT_CORRECTION_LIMIT := 10

  class LearningRepository {
    const correctionDao: CorrectionDao
    const preferenceDao: PreferenceDao

    ghost predicate Valid()
      reads this, correctionDao, preferenceDao
    {
      correctionDao.Valid() && preferenceDao.Valid() && PreferencesReadable(preferenceDao.rows)
    }

    constructor (correctionDao: CorrectionDao, preferenceDao: PreferenceDao)
      ensures this.correctionDao == correctionDao && this.preferenceDao == preferenceDao
    {
      this.correctionDao := correctionDao;
      this.preferenceDao := preferenceDao;
    }

    /** `saveCorrection(correction)`: one insert-or-replace into the corrections table only. */
    method SaveCorrection(correction: Correction)
      requires Valid()
      modifies correctionDao
      ensures Valid()
      ensures correctionDao.rows == Upsert(old(correctionDao.rows), CorrectionId, CorrectionToEntity(correction))
    {
      correctionDao.Insert(CorrectionToEntity(correction));
    }

    /** `savePreference(preference)` at time `now`: one insert-or-replace into the preferences table only. */
    method SavePreference(preference: LearnedPreference, now: int)
      requires Valid()
      modifies preferenceDao
      ensures Valid()
      ensures preferenceDao.rows == Upsert(old(preferenceDao.rows), PreferenceId, PreferenceToEntity(preference, now))
    {
      PreferenceRoundTrip(preference, now);
      preferenceDao.Insert(PreferenceToEntity(preference, now));
    }

    /**
     * `getLearnings(correctionLimit)`: the newest corrections up to the limit; the
     * preference list is always empty and the day count always 1, whatever is stored.
     */
    function GetLearnings(correctionLimit: int := DEFAULT_CORRECTION_LIMIT): (r: Learnings)
      reads this, correctionDao
      ensures r.preferences == [] && r.daysSinceStart == 1
      ensures |r.corrections| == if correctionLimit < 0 || |correctionDao.rows| <= correctionLimit then |correctionDao.rows| else correctionLimit
      ensures forall i :: 0 <= i < |r.corrections| ==> CorrectionToEntity(r.corrections[i]) == correctionDao.GetAllCorrections()[i]
      ensures forall i, j :: 0 <= i < j < |r.corrections| ==> r.corrections[i].timestamp >= r.corrections[j].timestamp
    {
      var recent := correctionDao.GetRecentCorrections(correctionLimit);
      var cs := CorrectionsToDomain(recent);
      assert forall i, j :: 0 <= i < j < |cs| ==> CorrectionNewestFirst(recent[i]) <= CorrectionNewestFirst(recent[j]);
      Learnings([], cs, 1)
    }

    /** `getCorrectionsFlow()`: every correction, newest first. */
    function GetCorrectionsFlow(): (r: seq<Correction>)
      reads this, correctionDao
      ensures |r| == |correctionDao.rows|
      ensures forall i :: 0 <= i < |r| ==> CorrectionToEntity(r[i]) == correctionDao.GetAllCorrections()[i]
    {
      CorrectionsToDomain(correctionDao.GetAllCorrections())
    }

    /**
     * `getPreferencesFlow()`: every preference, most confident first; `None` stands for
     * the exception a row with an unknown category name raises.
     */
    function GetPreferencesFlow(): (r: Option<seq<LearnedPreference>>)
      reads this, preferenceDao
      ensures PreferencesReadable(preferenceDao.rows) ==> r.Some?
      ensures r.Some? ==> |r.value| == |preferenceDao.rows|
      ensures r.Some? ==> forall i :: 0 <= i < |r.value| ==>
        PreferenceToEntity(r.value[i], preferenceDao.GetAllPreferences()[i].updatedAt) == preferenceDao.GetAllPreferences()[i]
      ensures r.Some? ==> forall i, j :: 0 <= i < j < |r.value| ==> r.value[i].confidence >= r.value[j].confidence
    {
      var all := preferenceDao.GetAllPreferences();
      var r := PreferencesToDomain(all);
      assert PreferencesReadable(preferenceDao.rows) ==> r.Some? by {
        if PreferencesReadable(preferenceDao.rows) {
          ReadableRowsConvert(preferenceDao.rows, all);
        }
      }
      if r.Some? then
        ConvertedInOrder(all, r.value);
        r
      else r
    }

    /** `getCorrectionCount()`. */
    function GetCorrectionCount(): (r: nat)
      reads this, correctionDao
      ensures correctionDao.Valid() ==> r == |Keys(correctionDao.rows, CorrectionId)|
    {
      correctionDao.GetTotalCount()
    }

    /** `getPreferenceCount()`. */
    function GetPreferenceCount(): (r: nat)
      reads this, preferenceDao
      ensures preferenceDao.Valid() ==> r == |Keys(preferenceDao.rows, PreferenceId)|
    {
      preferenceDao.GetTotalCount()
    }
  }
}
