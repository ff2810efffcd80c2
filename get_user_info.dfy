/** `getUserInfo(userId, targetUserId)`: validate both ids, check that the
    caller exists, fetch the target with a field projection, log the profile
    view and return the transformed target document. */
module GetUserInfo {
  import opened Common
  import opened Identity
  import opened Database

  const UserMissing := "User doesn't exist"
  const TargetMissing := "Target user doesn't exist"
  const FailurePrefix := "Fetching user info failed: "

  /** The target fields the lookup selects; `email` and `passwordHash` are not among them. */
  datatype TargetDoc = TargetDoc(
    id: Id,
    username: string,
    bio: string,
    profileImage: string,
    followers: seq<Id>,
    following: seq<Id>,
    likedTracks: seq<Id>,
    likedAlbums: seq<Id>,
    followingPlaylists: seq<Id>)

  function Select(u: User): (d: TargetDoc)
    ensures d.id == u.id && d.username == u.username && d.followers == u.followers && d.following == u.following
  {
    TargetDoc(u.id, u.username, u.bio, u.profileImage, u.followers, u.following,
              u.likedTracks, u.likedAlbums, u.followingPlaylists)
  }

  /** How one call settles and what the log holds afterwards; the users are never written. */
  datatype ViewRun<V> = ViewRun(outcome: Settled<V>, logs: seq<LogEntry>)

  /** The specification of one call. `transform` stands for the document
      transformer, whose definition is not part of this model. */
  function View<V>(users: map<Id, User>, logs: seq<LogEntry>, userId: Id, targetId: Id, fault: Fault,
                   transform: TargetDoc -> V): (run: ViewRun<V>)
  {
    match ValidateIds(userId, targetId)
    case Fail(e) => ViewRun(Threw(e), logs)
    case Pass =>
      if fault.At(FindCaller) then ViewRun(Rejected(SystemError(FailurePrefix + fault.cause)), logs)
      else if userId !in users then ViewRun(Rejected(CredentialError(UserMissing)), logs)
      else if fault.At(FindTarget) then ViewRun(Rejected(SystemError(FailurePrefix + fault.cause)), logs)
      else if targetId !in users then ViewRun(Rejected(NotFoundError(TargetMissing)), logs)
      else if fault.At(AppendLog) then ViewRun(Rejected(SystemError(FailurePrefix + fault.cause)), logs)
      else ViewRun(Resolved(transform(Select(users[targetId]))),
                   logs + [LogEntry(userId, ViewedUserProfile, targetId, UserTarget)])
  }

  /** The service itself, on the database. */
  method GetUserInfo<V>(db: Db, userId: Id, targetId: Id, fault: Fault, transform: TargetDoc -> V) returns (r: Settled<V>)
    modifies db
    ensures db.users == old(db.users)
    ensures var run := View(old(db.users), old(db.logs), userId, targetId, fault, transform);
            r == run.outcome && db.logs == run.logs
  {
    var check := ValidateIds(userId, targetId);
    if check.Fail? {
      return Threw(check.error);
    }
    if fault.At(FindCaller) {
      return Rejected(SystemError(FailurePrefix + fault.cause));
    }
    if userId !in db.users {
      return Rejected(CredentialError(UserMissing));
    }
    if fault.At(FindTarget) {
      return Rejected(SystemError(FailurePrefix + fault.cause));
    }
    if targetId !in db.users {
      return Rejected(NotFoundError(TargetMissing));
    }
    var targetDoc := Select(db.users[targetId]);
    if fault.At(AppendLog) {
      return Rejected(SystemError(FailurePrefix + fault.cause));
    }
    db.logs := db.logs + [LogEntry(userId, ViewedUserProfile, targetId, UserTarget)];
    r := Resolved(transform(targetDoc));
  }

  // ---------------------------------------------------------------------
  // Properties of the specification
  // ---------------------------------------------------------------------

  /** Empty or malformed ids throw synchronously, before any lookup, and log nothing. */
  lemma InvalidIdsThrow<V>(users: map<Id, User>, logs: seq<LogEntry>, userId: Id, targetId: Id, fault: Fault,
                           transform: TargetDoc -> V)
    requires !IsObjectId(userId) || !IsObjectId(targetId)
    ensures var run := View(users, logs, userId, targetId, fault, transform);
            run.outcome.Threw? && run.outcome.thrown.InvalidArgumentError? && run.logs == logs
  {
  }

  /** The error of each failing call, by the first step that fails; none of them logs. */
  lemma FailureClassified<V>(users: map<Id, User>, logs: seq<LogEntry>, userId: Id, targetId: Id, fault: Fault,
                             transform: TargetDoc -> V)
    requires IsObjectId(userId) && IsObjectId(targetId)
    ensures var run := View(users, logs, userId, targetId, fault, transform);
            (run.outcome.Failed() ==> run.logs == logs)
            && (fault.At(FindCaller) ==> run.outcome == Rejected(SystemError(FailurePrefix + fault.cause)))
            && (!fault.At(FindCaller) && userId !in users ==> run.outcome == Rejected(CredentialError(UserMissing)))
            && (!fault.At(FindCaller) && userId in users && fault.At(FindTarget)
                ==> run.outcome == Rejected(SystemError(FailurePrefix + fault.cause)))
            && (!fault.At(FindCaller) && userId in users && !fault.At(FindTarget) && targetId !in users
                ==> run.outcome == Rejected(NotFoundError(TargetMissing)))
            && (!fault.At(FindCaller) && userId in users && !fault.At(FindTarget) && targetId in users
                && fault.At(AppendLog)
                ==> run.outcome == Rejected(SystemError(FailurePrefix + fault.cause)))
  {
  }

  /** A call succeeds exactly when both users exist and no step fails; it then
      appends exactly one profile-view entry and returns the transformed
      projection of the target. */
  lemma SuccessLogsOneView<V>(users: map<Id, User>, logs: seq<LogEntry>, userId: Id, targetId: Id, fault: Fault,
                              transform: TargetDoc -> V)
    ensures var run := View(users, logs, userId, targetId, fault, transform);
            run.outcome.Resolved?
            <==> IsObjectId(userId) && IsObjectId(targetId) && userId in users && targetId in users
                 && !fault.At(FindCaller) && !fault.At(FindTarget) && !fault.At(AppendLog)
    ensures var run := View(users, logs, userId, targetId, fault, transform);
            run.outcome.Resolved? ==>
              run.outcome.value == transform(Select(users[targetId]))
              && run.logs == logs + [LogEntry(userId, ViewedUserProfile, targetId, UserTarget)]
  {
  }

  /** The result depends only on the selected fields of the target: two stores
      that agree on them give the same result. */
  lemma ResultDependsOnlyOnProjection<V>(users: map<Id, User>, users': map<Id, User>, logs: seq<LogEntry>,
                                         userId: Id, targetId: Id, transform: TargetDoc -> V)
    requires userId in users && userId in users'
    requires targetId in users && targetId in users'
    requires Select(users[targetId]) == Select(users'[targetId])
    ensures View(users, logs, userId, targetId, NoFault, transform)
            == View(users', logs, userId, targetId, NoFault, transform)
  {
  }
}
