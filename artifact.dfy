/**
 * The evaluation artifact as an in-memory log: the call records, grade
 * results and comparisons appended during one generation run, in order.
 */
module Artifact {
  import opened Judging

  /** A synthetic model invocation; only its identifier and timestamp are kept. */
  datatype CallRecord = CallRecord(id: string, timestamp: int)

  datatype GradeResult = GradeResult(
    submissionId: string,
    grade: int,
    distribution: seq<real>,
    callIds: seq<string>,
    gradedAt: int)

  datatype Comparison = Comparison(
    id: string,
    submissionA: string,
    submissionB: string,
    winner: Side,
    callIds: seq<string>,
    comparedAt: int,
    confidence: real,
    justification: string)

  /** The three ordered collections of the artifact. */
  datatype Log = Log(calls: seq<CallRecord>, grades: seq<GradeResult>, comparisons: seq<Comparison>)

  /** An artifact that references its submission set by path. */
  class Egf {
    const edfPath: string
    const description: string
    var calls: seq<CallRecord>
    var grades: seq<GradeResult>
    var comparisons: seq<Comparison>

    constructor ReferenceEdf(edfPath: string, description: string)
      ensures this.edfPath == edfPath && this.description == description
      ensures calls == [] && grades == [] && comparisons == []
    {
      this.edfPath := edfPath;
      this.description := description;
      calls, grades, comparisons := [], [], [];
    }

    function Contents(): Log
      reads this
    {
      Log(calls, grades, comparisons)
    }

    method AddLlmCall(callId: string, timestamp: int)
      modifies this
      ensures calls == old(calls) + [CallRecord(callId, timestamp)]
      ensures grades == old(grades) && comparisons == old(comparisons)
    {
      calls := calls + [CallRecord(callId, timestamp)];
    }

    method AddGradeResult(submissionId: string, grade: int, distribution: seq<real>,
                          callIds: seq<string>, gradedAt: int)
      modifies this
      ensures grades == old(grades) + [GradeResult(submissionId, grade, distribution, callIds, gradedAt)]
      ensures calls == old(calls) && comparisons == old(comparisons)
    {
      grades := grades + [GradeResult(submissionId, grade, distribution, callIds, gradedAt)];
    }

    method AddComparison(comparisonId: string, submissionA: string, submissionB: string,
                         winner: Side, callIds: seq<string>, comparedAt: int,
                         confidence: real, justification: string)
      modifies this
      ensures comparisons == old(comparisons) +
                [Comparison(comparisonId, submissionA, submissionB, winner, callIds, comparedAt, confidence, justification)]
      ensures calls == old(calls) && grades == old(grades)
    {
      comparisons := comparisons +
        [Comparison(comparisonId, submissionA, submissionB, winner, callIds, comparedAt, confidence, justification)];
    }
  }
}
