/** The social app's server-side `createPost(userId, title, image, description)`:
    validate the fields, look the author up, build the post record and insert
    it, turning storage failures into SystemError. */
module CreatePost {
  import opened Common

  type Id = string

  const UserNotFound := "user not found"
  const FailurePrefix := "failed to create post: "

  datatype UserDoc = UserDoc(name: string, username: string)

  /** A stored post; `date` is the creation time the clock supplied. */
  datatype PostDoc = PostDoc(author: Id, title: string, image: string, description: string, date: int, likes: seq<Id>)

  /** The shared validation helpers, whose definitions are not part of this
      model: `id(value, label)`, `text(value, label, maxLength)` and `url(value, label)`. */
  datatype Validators = Validators(
    id: (string, string) -> Outcome<Error>,
    text: (string, string, nat) -> Outcome<Error>,
    url: (string, string) -> Outcome<Error>)

  /** The four checks in the order the service runs them; the first failure is thrown. */
  function Validate(v: Validators, userId: Id, title: string, image: string, description: string): (r: Outcome<Error>)
    ensures r.Pass? <==> v.id(userId, "User ID").Pass? && v.text(title, "Title", 50).Pass?
                         && v.url(image, "Image").Pass? && v.text(description, "Description", 200).Pass?
    ensures v.id(userId, "User ID").Fail? ==> r == v.id(userId, "User ID")
    ensures v.id(userId, "User ID").Pass? && v.text(title, "Title", 50).Fail?
            ==> r == v.text(title, "Title", 50)
    ensures v.id(userId, "User ID").Pass? && v.text(title, "Title", 50).Pass? && v.url(image, "Image").Fail?
            ==> r == v.url(image, "Image")
    ensures v.id(userId, "User ID").Pass? && v.text(title, "Title", 50).Pass? && v.url(image, "Image").Pass?
            && v.text(description, "Description", 200).Fail?
            ==> r == v.text(description, "Description", 200)
  {
    if v.id(userId, "User ID").Fail? then v.id(userId, "User ID")
    else if v.text(title, "Title", 50).Fail? then v.text(title, "Title", 50)
    else if v.url(image, "Image").Fail? then v.url(image, "Image")
    else if v.text(description, "Description", 200).Fail? then v.text(description, "Description", 200)
    else Pass
  }

  datatype Step = FindUser | InsertPost

  datatype Fault = NoFault | FailAt(step: Step, cause: string) {
    predicate At(s: Step) { FailAt? && step == s }
  }

  datatype CreateRun = CreateRun(outcome: Settled<()>, posts: seq<PostDoc>)

  /** The record the service builds: the caller as author and no likes yet. */
  function NewPost(userId: Id, title: string, image: string, description: string, now: int): PostDoc {
    PostDoc(userId, title, image, description, now, [])
  }

  /** The specification of one call; the users are never written. */
  function Create(v: Validators, users: map<Id, UserDoc>, posts: seq<PostDoc>, userId: Id, title: string,
                  image: string, description: string, now: int, fault: Fault): (run: CreateRun)
  {
    match Validate(v, userId, title, image, description)
    case Fail(e) => CreateRun(Threw(e), posts)
    case Pass =>
      if fault.At(FindUser) then CreateRun(Rejected(SystemError(FailurePrefix + fault.cause)), posts)
      else if userId !in users then CreateRun(Rejected(MatchError(UserNotFound)), posts)
      else if fault.At(InsertPost) then CreateRun(Rejected(SystemError(FailurePrefix + fault.cause)), posts)
      else CreateRun(Resolved(()), posts + [NewPost(userId, title, image, description, now)])
  }

  class PostDb {
    var users: map<Id, UserDoc>
    var posts: seq<PostDoc>

    constructor (users0: map<Id, UserDoc>, posts0: seq<PostDoc>)
      ensures users == users0 && posts == posts0
    {
      users := users0;
      posts := posts0;
    }
  }

  /** The service itself; `now` is the clock's reading when the record is built. */
  method CreatePost(db: PostDb, v: Validators, userId: Id, title: string, image: string, description: string,
                    now: int, fault: Fault) returns (r: Settled<()>)
    modifies db
    ensures db.users == old(db.users)
    ensures var run := Create(v, old(db.users), old(db.posts), userId, title, image, description, now, fault);
            r == run.outcome && db.posts == run.posts
  {
    var check := Validate(v, userId, title, image, description);
    if check.Fail? {
      return Threw(check.error);
    }
    if fault.At(FindUser) {
      return Rejected(SystemError(FailurePrefix + fault.cause));
    }
    if userId !in db.users {
      return Rejected(MatchError(UserNotFound));
    }
    var post := NewPost(userId, title, image, description, now);
    if fault.At(InsertPost) {
      return Rejected(SystemError(FailurePrefix + fault.cause));
    }
    db.posts := db.posts + [post];
    r := Resolved(());
  }

  // ---------------------------------------------------------------------
  // Properties of the specification
  // ---------------------------------------------------------------------

  /** A field that fails validation is thrown synchronously, before any lookup, and nothing is stored. */
  lemma InvalidFieldsThrow(v: Validators, users: map<Id, UserDoc>, posts: seq<PostDoc>, userId: Id, title: string,
                           image: string, description: string, now: int, fault: Fault)
    requires Validate(v, userId, title, image, description).Fail?
    ensures var run := Create(v, users, posts, userId, title, image, description, now, fault);
            run.outcome == Threw(Validate(v, userId, title, image, description).error) && run.posts == posts
  {
  }

  /** Each failure after validation, and its error; none of them stores a post. */
  lemma FailuresClassified(v: Validators, users: map<Id, UserDoc>, posts: seq<PostDoc>, userId: Id, title: string,
                           image: string, description: string, now: int, fault: Fault)
    requires Validate(v, userId, title, image, description).Pass?
    ensures var run := Create(v, users, posts, userId, title, image, description, now, fault);
            (run.outcome.Failed() ==> run.posts == posts)
            && (fault.At(FindUser) ==> run.outcome == Rejected(SystemError(FailurePrefix + fault.cause)))
            && (!fault.At(FindUser) && userId !in users ==> run.outcome == Rejected(MatchError(UserNotFound)))
            && (!fault.At(FindUser) && userId in users && fault.At(InsertPost)
                ==> run.outcome == Rejected(SystemError(FailurePrefix + fault.cause)))
  {
  }

  /** A successful call adds exactly one post, at the end, authored by the
      caller, with the given fields and no likes. */
  lemma SuccessAddsOnePost(v: Validators, users: map<Id, UserDoc>, posts: seq<PostDoc>, userId: Id, title: string,
                           image: string, description: string, now: int, fault: Fault)
    ensures var run := Create(v, users, posts, userId, title, image, description, now, fault);
            run.outcome.Resolved?
            <==> Validate(v, userId, title, image, description).Pass? && userId in users
                 && !fault.At(FindUser) && !fault.At(InsertPost)
    ensures var run := Create(v, users, posts, userId, title, image, description, now, fault);
            run.outcome.Resolved? ==>
              |run.posts| == |posts| + 1 && run.posts[..|posts|] == posts
              && var p := run.posts[|posts|];
                 p.author == userId && p.title == title && p.image == image
                 && p.description == description && p.likes == []
  {
    var run := Create(v, users, posts, userId, title, image, description, now, fault);
    if run.outcome.Resolved? {
      assert run.posts[..|posts|] == posts;
    }
  }
}
