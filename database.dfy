/** The two collections the user services touch: the User documents, keyed by
    id, and the append-only activity log; plus the way a storage operation is
    made to fail. */
module Database {
  import opened Identity

  /** A User document. `followers` and `following` are arrays of ids: `$push`
      appends to them and `$pull` removes every occurrence. */
  datatype User = User(
    id: Id,
    username: string,
    email: string,
    passwordHash: string,
    bio: string,
    profileImage: string,
    followers: seq<Id>,
    following: seq<Id>,
    likedTracks: seq<Id>,
    likedAlbums: seq<Id>,
    followingPlaylists: seq<Id>)

  datatype EventType = FollowedUser | UnfollowedUser | ViewedUserProfile

  /** The kind of entity a log entry targets; the user services log `types[0]`, a user. */
  datatype TargetKind = UserTarget

  datatype LogEntry = LogEntry(user: Id, kind: EventType, targetUser: Id, targetKind: TargetKind)

  /** The storage operations a user service performs, in the order it performs them. */
  datatype Step = FindCaller | FindTarget | UpdateCaller | UpdateTarget | AppendLog

  /** Which storage operation, if any, fails in a run, and with what message. */
  datatype Fault = NoFault | FailAt(step: Step, cause: string) {
    predicate At(s: Step) { FailAt? && step == s }
  }

  /** The database as the services see it. */
  class Db {
    var users: map<Id, User>
    var logs: seq<LogEntry>

    constructor (users0: map<Id, User>, logs0: seq<LogEntry>)
      ensures users == users0 && logs == logs0
    {
      users := users0;
      logs := logs0;
    }
  }

  /** `$push`: append, duplicates included. */
  function Push(s: seq<Id>, x: Id): (r: seq<Id>)
    ensures x in r && |r| == |s| + 1 && r[..|s|] == s
  {
    s + [x]
  }

  /** `$pull`: remove every element equal to `x`, keeping the others in order. */
  function Pull(s: seq<Id>, x: Id): (r: seq<Id>)
    ensures x !in r
    ensures forall y :: y != x ==> (y in r <==> y in s)
    ensures |r| <= |s|
  {
    if s == [] then []
    else if s[0] == x then Pull(s[1..], x)
    else [s[0]] + Pull(s[1..], x)
  }

  /** Pulling an element that is absent changes nothing. */
  lemma {:induction false} PullAbsent(s: seq<Id>, x: Id)
    requires x !in s
    ensures Pull(s, x) == s
  {
    if s != [] {
      PullAbsent(s[1..], x);
    }
  }

  /** Pulling distributes over concatenation. */
  lemma {:induction false} PullAppend(s: seq<Id>, t: seq<Id>, x: Id)
    ensures Pull(s + t, x) == Pull(s, x) + Pull(t, x)
  {
    if s == [] {
      assert s + t == t;
    } else {
      assert (s + t)[1..] == s[1..] + t;
      PullAppend(s[1..], t, x);
    }
  }

  /** A push undone by a pull restores a list that did not hold the id. */
  lemma PullUndoesPush(s: seq<Id>, x: Id)
    requires x !in s
    ensures Pull(Push(s, x), x) == s
  {
    PullAppend(s, [x], x);
    PullAbsent(s, x);
    assert Pull([x], x) == Pull([], x);
  }
}
