/** The client-side data layer of the social app: users stored one per key,
    under the lower-cased key "user_" + username, and all posts stored as one
    list under the key "posts", with filter, append and delete-first-match
    operations. The browser's key-value store and the JSON encoding of its
    values are modelled by the fields of `DataStore`. */
module SocialData {
  import opened Common

  datatype UserData = UserData(name: string, surname: string, email: string, username: string, password: string)

  datatype Post = Post(id: string, author: string, title: string, image: string, description: string)

  // ---------------------------------------------------------------------
  // Keys
  // ---------------------------------------------------------------------

  function LowerChar(c: char): (d: char)
    ensures 'A' <= c <= 'Z' ==> 'a' <= d <= 'z'
    ensures !('A' <= c <= 'Z') ==> d == c
  {
    if 'A' <= c <= 'Z' then (c as int - 'A' as int + 'a' as int) as char else c
  }

  /** `toLowerCase`, on the ASCII letters. */
  function Lower(s: string): (r: string)
    ensures |r| == |s|
    ensures forall i :: 0 <= i < |s| ==> r[i] == LowerChar(s[i])
  {
    if s == [] then [] else [LowerChar(s[0])] + Lower(s[1..])
  }

  lemma {:induction false} LowerAppend(a: string, b: string)
    ensures Lower(a + b) == Lower(a) + Lower(b)
  {
    if a == [] {
      assert a + b == b;
    } else {
      assert (a + b)[1..] == a[1..] + b;
      LowerAppend(a[1..], b);
    }
  }

  const UserPrefix := "user_"

  /** The store key of a user: "user_" + username, lower-cased. */
  function UserKey(username: string): string {
    Lower(UserPrefix + username)
  }

  /** Two usernames share a key exactly when they are equal up to case. */
  lemma UserKeyCaseInsensitive(a: string, b: string)
    ensures UserKey(a) == UserKey(b) <==> Lower(a) == Lower(b)
  {
    LowerAppend(UserPrefix, a);
    LowerAppend(UserPrefix, b);
    assert Lower(UserPrefix) == UserPrefix;
    if UserKey(a) == UserKey(b) {
      assert Lower(a) == UserKey(a)[|UserPrefix|..];
    }
  }

  // ---------------------------------------------------------------------
  // Specification functions
  // ---------------------------------------------------------------------

  /** `findUser`: the record stored under the name's key, if any. */
  function Lookup(users: map<string, UserData>, username: string): Option<UserData> {
    var key := UserKey(username);
    if key in users then Some(users[key]) else None
  }

  /** `insertUser`: store (or overwrite) the record under its username's key. */
  function StoreUser(users: map<string, UserData>, u: UserData): map<string, UserData> {
    users[UserKey(u.username) := u]
  }

  /** A stored user is found under every casing of its name, and no other
      lookup is affected. */
  lemma FoundUnderAnyCasing(users: map<string, UserData>, u: UserData, name: string)
    ensures Lower(name) == Lower(u.username) ==> Lookup(StoreUser(users, u), name) == Some(u)
    ensures Lower(name) != Lower(u.username) ==> Lookup(StoreUser(users, u), name) == Lookup(users, name)
  {
    UserKeyCaseInsensitive(name, u.username);
  }

  /** A missing "posts" key reads as the empty list. */
  function Stored(posts: Option<seq<Post>>): seq<Post> {
    posts.GetOr([])
  }

  /** `Array.prototype.filter`: the elements satisfying `p`, in order. */
  function Filter(s: seq<Post>, p: Post -> bool): (r: seq<Post>)
    ensures |r| <= |s|
  {
    if s == [] then []
    else if p(s[0]) then [s[0]] + Filter(s[1..], p)
    else Filter(s[1..], p)
  }

  /** A post is kept exactly when it is in the list and satisfies `p`. */
  lemma {:induction false} FilterMembers(s: seq<Post>, p: Post -> bool)
    ensures forall x :: x in Filter(s, p) <==> x in s && p(x)
  {
    if s != [] {
      FilterMembers(s[1..], p);
      assert forall x :: x in s <==> x == s[0] || x in s[1..];
    }
  }

  lemma {:induction false} FilterAppend(s: seq<Post>, t: seq<Post>, p: Post -> bool)
    ensures Filter(s + t, p) == Filter(s, p) + Filter(t, p)
  {
    if s == [] {
      assert s + t == t;
    } else {
      assert (s + t)[1..] == s[1..] + t;
      FilterAppend(s[1..], t, p);
    }
  }

  /** When every element satisfies `p`, filtering keeps the list as it is. */
  lemma {:induction false} FilterKeepsAll(s: seq<Post>, p: Post -> bool)
    requires forall i :: 0 <= i < |s| ==> p(s[i])
    ensures Filter(s, p) == s
  {
    if s != [] {
      FilterKeepsAll(s[1..], p);
    }
  }

  /** `Array.prototype.findIndex`: the first index whose element satisfies `p`. */
  function FirstIndex(s: seq<Post>, p: Post -> bool): (r: Option<nat>)
    ensures r.Some? ==> r.value < |s| && p(s[r.value]) && forall j :: 0 <= j < r.value ==> !p(s[j])
    ensures r.None? ==> forall j :: 0 <= j < |s| ==> !p(s[j])
  {
    if s == [] then None
    else if p(s[0]) then Some(0)
    else match FirstIndex(s[1..], p)
      case None => None
      case Some(i) => Some(i + 1)
  }

  /** `deletePost`'s list: the first match spliced out, or the list unchanged. */
  function DeleteFirst(s: seq<Post>, p: Post -> bool): seq<Post> {
    match FirstIndex(s, p)
    case None => s
    case Some(i) => s[..i] + s[i + 1..]
  }

  /** Splicing out the first match removes exactly that post from the front
      of the filtered list. */
  lemma {:induction false} FilterSplitAt(s: seq<Post>, p: Post -> bool, i: nat)
    requires i < |s| && p(s[i]) && forall j :: 0 <= j < i ==> !p(s[j])
    ensures Filter(s, p) == [s[i]] + Filter(s[..i] + s[i + 1..], p)
  {
    if i == 0 {
      assert s[..0] + s[1..] == s[1..];
    } else {
      var t := s[1..];
      FilterSplitAt(t, p, i - 1);
      var rest := s[..i] + s[i + 1..];
      assert rest[0] == s[0] && rest[1..] == t[..i - 1] + t[i..];
    }
  }

  /** Deleting removes exactly the first match: of the matching posts only the
      first is gone. */
  lemma DeleteFirstDropsFirstMatch(s: seq<Post>, p: Post -> bool)
    requires FirstIndex(s, p).Some?
    ensures |DeleteFirst(s, p)| == |s| - 1
    ensures Filter(s, p) == [s[FirstIndex(s, p).value]] + Filter(DeleteFirst(s, p), p)
  {
    FilterSplitAt(s, p, FirstIndex(s, p).value);
  }

  /** Deleting keeps every post that does not match, in order. */
  lemma DeleteFirstKeepsOthers(s: seq<Post>, p: Post -> bool, q: Post -> bool)
    requires forall x :: q(x) == !p(x)
    ensures Filter(DeleteFirst(s, p), q) == Filter(s, q)
  {
    if FirstIndex(s, p).Some? {
      var i := FirstIndex(s, p).value;
      var before, after := s[..i], s[i + 1..];
      assert s == before + ([s[i]] + after);
      assert DeleteFirst(s, p) == before + after;
      FilterAppend(before, [s[i]] + after, q);
      FilterAppend(before, after, q);
      assert Filter([s[i]] + after, q) == Filter(after, q) by {
        assert ([s[i]] + after)[1..] == after;
      }
    }
  }

  /** Without a match, deleting changes nothing. */
  lemma DeleteWithoutMatch(s: seq<Post>, p: Post -> bool)
    requires forall x :: x in s ==> !p(x)
    ensures DeleteFirst(s, p) == s
  {
  }

  // ---------------------------------------------------------------------
  // The store
  // ---------------------------------------------------------------------

  class DataStore {
    /** The user records, by key. */
    var users: map<string, UserData>
    /** The value under "posts"; `None` while the key is absent. */
    var posts: Option<seq<Post>>

    constructor ()
      ensures users == map[] && posts == None
    {
      users := map[];
      posts := None;
    }

    method FindUser(username: string) returns (r: Option<UserData>)
      ensures r == Lookup(users, username)
    {
      var key := UserKey(username);
      if key in users {
        r := Some(users[key]);
      } else {
        r := None;
      }
    }

    method InsertUser(u: UserData)
      modifies this
      ensures users == StoreUser(old(users), u) && posts == old(posts)
    {
      users := users[UserKey(u.username) := u];
    }

    method FindPosts(p: Post -> bool) returns (r: seq<Post>)
      ensures r == Filter(Stored(posts), p)
      ensures forall x :: x in r <==> x in Stored(posts) && p(x)
    {
      var all := if posts.Some? then posts.value else [];
      r := Filter(all, p);
      FilterMembers(all, p);
    }

    /** Appends the post, with its `Id` set to `newId` from the id generator,
        and writes the list back (creating the key if it was absent). */
    method InsertPost(post: Post, newId: string)
      modifies this
      ensures posts == Some(Stored(old(posts)) + [post.(id := newId)])
      ensures users == old(users)
    {
      var all := if posts.Some? then posts.value else [];
      all := all + [post.(id := newId)];
      posts := Some(all);
    }

    /** Splices out the first post satisfying `p`; writes back only if one was found. */
    method DeletePost(p: Post -> bool)
      modifies this
      ensures users == old(users)
      ensures FirstIndex(Stored(old(posts)), p).None? ==> posts == old(posts)
      ensures FirstIndex(Stored(old(posts)), p).Some? ==> posts == Some(DeleteFirst(Stored(old(posts)), p))
    {
      var all := if posts.Some? then posts.value else [];
      var index := FirstIndex(all, p);
      if index.Some? {
        var i := index.value;
        all := all[..i] + all[i + 1..];
        posts := Some(all);
      }
    }
  }
}
