/** `SaveCorrectionUseCase` (SaveCorrectionUseCase.kt): builds one correction and saves it. */
module SaveCorrections {
  import opened Tables
  import opened Domain
  import opened Entities
  import opened LearningRepositories

  class SaveCorrectionUseCase {
    const learningRepository: LearningRepository

    constructor (learningRepository: LearningRepository)
      ensures this.learningRepository == learningRepository
    {
      this.learningRepository := learningRepository;
    }

    /**
     * `invoke(originalResponse, correctedResponse, context)` with the fresh id `id` and
     * the clock reading `now`: one insert of a correction carrying the three texts
     * verbatim; only the corrections table changes.
     */
    method Invoke(originalResponse: string, correctedResponse: string, id: string, now: int, context: string := "")
      requires learningRepository.Valid()
      modifies learningRepository.correctionDao
      ensures learningRepository.Valid()
      ensures learningRepository.correctionDao.rows
           == Upsert(old(learningRepository.correctionDao.rows), CorrectionId,
                     CorrectionEntity(id, originalResponse, correctedResponse, context, now))
    {
      var correction := Correction(id, originalResponse, correctedResponse, context, now);
      learningRepository.SaveCorrection(correction);
    }
  }

  /**
   * With a fresh id the correction table grows by exactly the new row: every earlier
   * correction stays, in place, and the count goes up by one.
   */
  lemma FreshCorrectionAppends(rows: seq<CorrectionEntity>, originalResponse: string, correctedResponse: string, id: string, now: int, context: string)
    requires UniqueKeys(rows, CorrectionId)
    requires id !in Keys(rows, CorrectionId)
    ensures var after := Upsert(rows, CorrectionId, CorrectionEntity(id, originalResponse, correctedResponse, context, now));
      after[..|rows|] == rows && |after| == |rows| + 1
      && CorrectionToDomain(after[|rows|]) == Correction(id, originalResponse, correctedResponse, context, now)
  {
  }
}
