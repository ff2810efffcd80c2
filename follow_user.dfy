/** `followUser(userId, targetUserId)`: validate both ids, look up the caller
    and then the target, refuse a self-follow, decide follow or unfollow from
    whether the caller is among the target's followers, update both users'
    lists, and log the event. */
module FollowUser {
  import opened Common
  import opened Identity
  import opened Database

  const UserMissing := "User doesn't exist"
  const TargetMissing := "Target user doesn't exist"
  const SelfFollow := "You cannot follow yourself !"
  const LookupPrefix := "Follow failed: "
  const UpdatePrefix := "Failed to follow user: "

  /** Everything one call produces: how it settles and the resulting store. */
  datatype FollowRun = FollowRun(outcome: Settled<()>, users: map<Id, User>, logs: seq<LogEntry>)

  /** The toggle discriminant: is the caller already one of the target's followers? */
  predicate IsFollowing(target: User, userId: Id) {
    userId in target.followers
  }

  /** The caller's new `following`: the target pulled if already followed, else pushed. */
  function NewFollowing(caller: User, targetId: Id, following: bool): User {
    caller.(following := if following then Pull(caller.following, targetId) else Push(caller.following, targetId))
  }

  /** The target's new `followers`: the caller pulled if already following, else pushed. */
  function NewFollowers(target: User, userId: Id, following: bool): User {
    target.(followers := if following then Pull(target.followers, userId) else Push(target.followers, userId))
  }

  function EventFor(following: bool): EventType {
    if following then UnfollowedUser else FollowedUser
  }

  /** The specification of one call, step by step as the service runs it. */
  function Follow(users: map<Id, User>, logs: seq<LogEntry>, userId: Id, targetId: Id, fault: Fault): (run: FollowRun)
  {
    match ValidateIds(userId, targetId)
    case Fail(e) => FollowRun(Threw(e), users, logs)
    case Pass =>
      if fault.At(FindCaller) then FollowRun(Rejected(SystemError(LookupPrefix + fault.cause)), users, logs)
      else if userId !in users then FollowRun(Rejected(CredentialError(UserMissing)), users, logs)
      else if fault.At(FindTarget) then FollowRun(Rejected(SystemError(LookupPrefix + fault.cause)), users, logs)
      else if targetId !in users then FollowRun(Rejected(NotFoundError(TargetMissing)), users, logs)
      else if userId == targetId then FollowRun(Rejected(InvalidArgumentError(SelfFollow)), users, logs)
      else
        var following := IsFollowing(users[targetId], userId);
        if fault.At(UpdateCaller) then FollowRun(Rejected(SystemError(UpdatePrefix + fault.cause)), users, logs)
        else
          var users1 := users[userId := NewFollowing(users[userId], targetId, following)];
          if fault.At(UpdateTarget) then FollowRun(Rejected(SystemError(UpdatePrefix + fault.cause)), users1, logs)
          else
            var users2 := users1[targetId := NewFollowers(users1[targetId], userId, following)];
            if fault.At(AppendLog) then FollowRun(Rejected(SystemError(LookupPrefix + fault.cause)), users2, logs)
            else FollowRun(Resolved(()), users2, logs + [LogEntry(userId, EventFor(following), targetId, UserTarget)])
  }

  /** The service itself, on the database. */
  method FollowUser(db: Db, userId: Id, targetId: Id, fault: Fault) returns (r: Settled<()>)
    modifies db
    ensures var run := Follow(old(db.users), old(db.logs), userId, targetId, fault);
            r == run.outcome && db.users == run.users && db.logs == run.logs
  {
    var check := ValidateIds(userId, targetId);
    if check.Fail? {
      return Threw(check.error);
    }
    if fault.At(FindCaller) {
      return Rejected(SystemError(LookupPrefix + fault.cause));
    }
    if userId !in db.users {
      return Rejected(CredentialError(UserMissing));
    }
    if fault.At(FindTarget) {
      return Rejected(SystemError(LookupPrefix + fault.cause));
    }
    if targetId !in db.users {
      return Rejected(NotFoundError(TargetMissing));
    }
    var caller := db.users[userId];
    var target := db.users[targetId];
    // a document found by id carries that id, so comparing the two documents' ids compares the keys
    if userId == targetId {
      return Rejected(InvalidArgumentError(SelfFollow));
    }
    var following := userId in target.followers;
    if fault.At(UpdateCaller) {
      return Rejected(SystemError(UpdatePrefix + fault.cause));
    }
    db.users := db.users[userId := NewFollowing(caller, targetId, following)];
    if fault.At(UpdateTarget) {
      return Rejected(SystemError(UpdatePrefix + fault.cause));
    }
    db.users := db.users[targetId := NewFollowers(target, userId, following)];
    if fault.At(AppendLog) {
      return Rejected(SystemError(LookupPrefix + fault.cause));
    }
    db.logs := db.logs + [LogEntry(userId, EventFor(following), targetId, UserTarget)];
    r := Resolved(());
  }

  // ---------------------------------------------------------------------
  // Properties of the specification
  // ---------------------------------------------------------------------

  /** Empty or malformed ids throw synchronously and touch nothing. */
  lemma InvalidIdsThrow(users: map<Id, User>, logs: seq<LogEntry>, userId: Id, targetId: Id, fault: Fault)
    requires !IsObjectId(userId) || !IsObjectId(targetId)
    ensures var run := Follow(users, logs, userId, targetId, fault);
            run.outcome.Threw? && run.outcome.thrown.InvalidArgumentError?
            && (userId == "" || targetId == "" ==> run.outcome.thrown.message == AllInputsRequired)
            && (userId != "" && targetId != "" ==> run.outcome.thrown.message == InvalidObjectId)
            && run.users == users && run.logs == logs
  {
  }

  /** Error precedence: a missing caller is reported before the target is examined. */
  lemma MissingCallerFirst(users: map<Id, User>, logs: seq<LogEntry>, userId: Id, targetId: Id, fault: Fault)
    requires IsObjectId(userId) && IsObjectId(targetId)
    requires !fault.At(FindCaller) && userId !in users
    ensures Follow(users, logs, userId, targetId, fault).outcome == Rejected(CredentialError(UserMissing))
  {
  }

  /** A missing target is reported once the caller is found, whether or not it is the caller. */
  lemma MissingTargetSecond(users: map<Id, User>, logs: seq<LogEntry>, userId: Id, targetId: Id, fault: Fault)
    requires IsObjectId(userId) && IsObjectId(targetId) && userId in users
    requires !fault.At(FindCaller) && !fault.At(FindTarget) && targetId !in users
    ensures Follow(users, logs, userId, targetId, fault).outcome == Rejected(NotFoundError(TargetMissing))
  {
  }

  /** A self-follow is refused, and only after both lookups succeeded. */
  lemma SelfFollowRefused(users: map<Id, User>, logs: seq<LogEntry>, id: Id, fault: Fault)
    requires IsObjectId(id)
    ensures var run := Follow(users, logs, id, id, fault);
            run.outcome.Failed() && run.users == users && run.logs == logs
            && (run.outcome == Rejected(InvalidArgumentError(SelfFollow))
                <==> id in users && !fault.At(FindCaller) && !fault.At(FindTarget))
  {
  }

  /** Every failure before the first write leaves users and log as they were;
      a failed call never appends to the log. */
  lemma FailureKeepsLog(users: map<Id, User>, logs: seq<LogEntry>, userId: Id, targetId: Id, fault: Fault)
    ensures var run := Follow(users, logs, userId, targetId, fault);
            run.outcome.Failed() ==> run.logs == logs
    ensures var run := Follow(users, logs, userId, targetId, fault);
            run.outcome.Failed() && !fault.At(UpdateTarget) && !fault.At(AppendLog) ==> run.users == users
  {
  }

  /** The store after a call: untouched, or with the caller's write, or with both writes. */
  lemma {:induction false} FollowStages(users: map<Id, User>, logs: seq<LogEntry>, userId: Id, targetId: Id, fault: Fault)
    ensures var run := Follow(users, logs, userId, targetId, fault);
            run.users == users
            || (userId in users && targetId in users && userId != targetId
                && var following := IsFollowing(users[targetId], userId);
                   var users1 := users[userId := NewFollowing(users[userId], targetId, following)];
                   run.users == users1
                   || run.users == users1[targetId := NewFollowers(users[targetId], userId, following)])
  {
  }

  /** The only writes are to the caller's `following` and the target's `followers`. */
  lemma OnlyGraphFieldsWritten(users: map<Id, User>, logs: seq<LogEntry>, userId: Id, targetId: Id, fault: Fault)
    ensures var run := Follow(users, logs, userId, targetId, fault);
            run.users.Keys == users.Keys
            && (forall k :: k in users && k != userId && k != targetId ==> run.users[k] == users[k])
            && (userId in users ==> run.users[userId].(following := users[userId].following) == users[userId])
            && (targetId in users ==> run.users[targetId].(followers := users[targetId].followers) == users[targetId])
  {
    FollowStages(users, logs, userId, targetId, fault);
  }

  /** The outcome of a successful call, in terms of the discriminant computed
      from the target's followers alone. */
  lemma SuccessfulToggle(users: map<Id, User>, logs: seq<LogEntry>, userId: Id, targetId: Id)
    requires IsObjectId(userId) && IsObjectId(targetId)
    requires userId in users && targetId in users && userId != targetId
    ensures var run := Follow(users, logs, userId, targetId, NoFault);
            var following := userId in users[targetId].followers;
            run.outcome == Resolved(())
            && run.users[userId].following
               == (if following then Pull(users[userId].following, targetId) else users[userId].following + [targetId])
            && run.users[targetId].followers
               == (if following then Pull(users[targetId].followers, userId) else users[targetId].followers + [userId])
            && run.logs == logs + [LogEntry(userId, if following then UnfollowedUser else FollowedUser, targetId, UserTarget)]
  {
  }

  /** After a successful follow both sides hold the edge; after an unfollow neither does. */
  lemma EdgeAfterSuccess(users: map<Id, User>, logs: seq<LogEntry>, userId: Id, targetId: Id, fault: Fault)
    requires Follow(users, logs, userId, targetId, fault).outcome.Resolved?
    ensures var run := Follow(users, logs, userId, targetId, fault);
            var followed := run.logs[|run.logs| - 1].kind == FollowedUser;
            |run.logs| == |logs| + 1 && run.logs[..|logs|] == logs
            && (targetId in run.users[userId].following <==> followed)
            && (userId in run.users[targetId].followers <==> followed)
  {
    var run := Follow(users, logs, userId, targetId, fault);
    assert run.logs[..|logs|] == logs;
  }

  /** The follow edge as seen from both ends. */
  ghost predicate Symmetric(users: map<Id, User>) {
    forall a, b :: a in users && b in users ==>
      (b in users[a].following <==> a in users[b].followers)
  }

  /** No user follows itself. */
  ghost predicate NoSelfEdges(users: map<Id, User>) {
    forall a :: a in users ==> a !in users[a].following && a !in users[a].followers
  }

  /** Both writes of a toggle, applied to a symmetric graph without self-edges, keep it so. */
  lemma ToggleKeepsGraph(users: map<Id, User>, userId: Id, targetId: Id)
    requires Symmetric(users) && NoSelfEdges(users)
    requires userId in users && targetId in users && userId != targetId
    ensures var following := IsFollowing(users[targetId], userId);
            var u := users[userId := NewFollowing(users[userId], targetId, following)]
                          [targetId := NewFollowers(users[targetId], userId, following)];
            Symmetric(u) && NoSelfEdges(u)
  {
    var caller, target := users[userId], users[targetId];
    var following := IsFollowing(target, userId);
    var u := users[userId := NewFollowing(caller, targetId, following)][targetId := NewFollowers(target, userId, following)];
    assert following <==> targetId in caller.following;
    forall a, b | a in u && b in u
      ensures b in u[a].following <==> a in u[b].followers
    {
      assert b in users[a].following <==> a in users[b].followers;
      var fa := if a == userId then NewFollowing(caller, targetId, following).following else users[a].following;
      var fb := if b == targetId then NewFollowers(target, userId, following).followers else users[b].followers;
      assert u[a].following == fa;
      assert u[b].followers == fb;
    }
    forall a | a in u
      ensures a !in u[a].following && a !in u[a].followers
    {
      assert a !in users[a].following && a !in users[a].followers;
    }
  }

  /** A call that settles without error keeps the graph symmetric and free of self-edges. */
  lemma SuccessPreservesGraph(users: map<Id, User>, logs: seq<LogEntry>, userId: Id, targetId: Id, fault: Fault)
    requires Symmetric(users) && NoSelfEdges(users)
    requires Follow(users, logs, userId, targetId, fault).outcome.Resolved?
    ensures Symmetric(Follow(users, logs, userId, targetId, fault).users)
    ensures NoSelfEdges(Follow(users, logs, userId, targetId, fault).users)
  {
    ToggleKeepsGraph(users, userId, targetId);
  }

  /** When the target's write fails after the caller's succeeded, the edge is
      left visible from one end only. */
  lemma PartialFailureBreaksSymmetry(users: map<Id, User>, logs: seq<LogEntry>, userId: Id, targetId: Id, cause: string)
    requires IsObjectId(userId) && IsObjectId(targetId)
    requires userId in users && targetId in users && userId != targetId
    requires userId !in users[targetId].followers
    ensures var run := Follow(users, logs, userId, targetId, FailAt(UpdateTarget, cause));
            run.outcome == Rejected(SystemError(UpdatePrefix + cause))
            && targetId in run.users[userId].following
            && userId !in run.users[targetId].followers
            && !Symmetric(run.users)
  {
  }

  /** Two successive toggles from a state where neither list holds the other
      id restore both lists and log one follow followed by one unfollow. */
  lemma ToggleTwiceRestores(users: map<Id, User>, logs: seq<LogEntry>, userId: Id, targetId: Id)
    requires IsObjectId(userId) && IsObjectId(targetId)
    requires userId in users && targetId in users && userId != targetId
    requires userId !in users[targetId].followers && targetId !in users[userId].following
    ensures var first := Follow(users, logs, userId, targetId, NoFault);
            var second := Follow(first.users, first.logs, userId, targetId, NoFault);
            first.outcome == Resolved(()) && second.outcome == Resolved(())
            && second.users == users
            && second.logs == logs + [LogEntry(userId, FollowedUser, targetId, UserTarget),
                                      LogEntry(userId, UnfollowedUser, targetId, UserTarget)]
  {
    var first := Follow(users, logs, userId, targetId, NoFault);
    var caller, target := users[userId], users[targetId];
    assert first.users[userId] == caller.(following := Push(caller.following, targetId));
    assert first.users[targetId] == target.(followers := Push(target.followers, userId));
    PullUndoesPush(caller.following, targetId);
    PullUndoesPush(target.followers, userId);
    var second := Follow(first.users, first.logs, userId, targetId, NoFault);
    assert second.users[userId] == caller;
    assert second.users[targetId] == target;
    assert second.users == users;
  }
}
