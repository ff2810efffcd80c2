/** Identifier checks that every user service runs before any lookup:
    `validate.inputs` (all ids present) and then `validate.objectId` on each. */
module Identity {
  import opened Common

  type Id = string

  const AllInputsRequired := "All inputs are required"
  const InvalidObjectId := "Invalid ObjectId"

  predicate IsHexDigit(c: char) {
    ('0' <= c <= '9') || ('a' <= c <= 'f')
  }

  /** The storage engine's identifier grammar, in canonical form: 24 hex digits. */
  predicate IsObjectId(s: string) {
    |s| == 24 && forall i :: 0 <= i < |s| ==> IsHexDigit(s[i])
  }

  /** `validate.inputs(userId, targetUserId)` followed by `validate.objectId`
      on the caller id and then on the target id. */
  function ValidateIds(userId: Id, targetId: Id): (r: Outcome<Error>)
    ensures r == Pass <==> IsObjectId(userId) && IsObjectId(targetId)
    ensures r.Fail? ==> r.error.InvalidArgumentError?
    ensures r.Fail? && (userId == "" || targetId == "") ==> r.error.message == AllInputsRequired
    ensures r.Fail? && userId != "" && targetId != "" ==> r.error.message == InvalidObjectId
  {
    if userId == "" || targetId == "" then Fail(InvalidArgumentError(AllInputsRequired))
    else if !IsObjectId(userId) then Fail(InvalidArgumentError(InvalidObjectId))
    else if !IsObjectId(targetId) then Fail(InvalidArgumentError(InvalidObjectId))
    else Pass
  }
}
