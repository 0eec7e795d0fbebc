/** The two write paths of the bulletin board, `create_post` and
    `reply_post` (postify.py), over an in-memory copy of the `posts` and
    `replies` tables. Each request either leaves both tables as they were or
    appends exactly one row. The identifier `uuid.uuid4()` would produce is
    passed in as `newId`; the tables' PRIMARY KEY constraint is kept, so an
    identifier already in use makes the insert fail without a row. */
module Board {
  import opened Schema
  import opened Validation
  import opened Queries
  import opened Report

  /** What a write request comes to: a soft rejection by the guard (the
      redirect), one inserted row, or the storage error a clashing primary
      key raises. */
  datatype WriteOutcome = Rejected | Inserted(id: string) | DuplicateKey

  class Store {
    var posts: seq<Post>
    var replies: seq<Reply>

    ghost predicate Valid()
      reads this
    {
      TablesValid(posts, replies)
    }

    /** Freshly created tables are empty. */
    constructor ()
      ensures Valid() && posts == [] && replies == []
    {
      posts := [];
      replies := [];
    }

    /** `create_post`: a request the guard rejects, or whose id clashes,
        changes nothing; otherwise exactly one post with the given fields
        and the fresh id is appended. Replies never change. */
    method CreatePost(name: Option<string>, author: Option<string>, content: Option<string>, newId: string)
      returns (outcome: WriteOutcome)
      requires Valid()
      modifies this
      ensures Valid()
      ensures replies == old(replies)
      ensures !CreatePostGuard(name, author, content) ==> outcome == Rejected && posts == old(posts)
      ensures CreatePostGuard(name, author, content) && newId in PostIds(old(posts)) ==>
        outcome == DuplicateKey && posts == old(posts)
      ensures CreatePostGuard(name, author, content) && newId !in PostIds(old(posts)) ==>
        && outcome == Inserted(newId)
        && posts == old(posts) + [Post(newId, name.value, author.value, content.value)]
    {
      if !CreatePostGuard(name, author, content) {
        return Rejected;
      }
      if newId in PostIds(posts) {
        return DuplicateKey;
      }
      var row := Post(newId, name.value, author.value, content.value);
      assert forall k :: 0 <= k < |posts| ==> posts[k].id in PostIds(posts);
      posts := posts + [row];
      outcome := Inserted(newId);
    }

    /** `reply_post`: a request the guard rejects, or whose id clashes,
        changes nothing; otherwise exactly one reply with the given fields
        and the fresh id is appended, whether or not `postId` names a stored
        post. Posts never change. */
    method ReplyPost(postId: Option<string>, author: Option<string>, content: Option<string>, newId: string)
      returns (outcome: WriteOutcome)
      requires Valid()
      modifies this
      ensures Valid()
      ensures posts == old(posts)
      ensures !ReplyGuard(postId, author, content) ==> outcome == Rejected && replies == old(replies)
      ensures ReplyGuard(postId, author, content) && newId in ReplyIds(old(replies)) ==>
        outcome == DuplicateKey && replies == old(replies)
      ensures ReplyGuard(postId, author, content) && newId !in ReplyIds(old(replies)) ==>
        && outcome == Inserted(newId)
        && replies == old(replies) + [Reply(newId, postId.value, author.value, content.value)]
    {
      if !ReplyGuard(postId, author, content) {
        return Rejected;
      }
      if newId in ReplyIds(replies) {
        return DuplicateKey;
      }
      var row := Reply(newId, postId.value, author.value, content.value);
      assert forall k :: 0 <= k < |replies| ==> replies[k].id in ReplyIds(replies);
      replies := replies + [row];
      outcome := Inserted(newId);
    }
  }

  /** A session on a fresh board: create post "Hello" by "alice" with
      content "World" under id "X", reply "Hi!" by "bob" to it, and report it
      with no reason. The results are what the read paths show afterwards. */
  method HelloWorldSession() returns (listing: seq<PostSummary>, view: PostView, sent: Option<ReportPayload>)
    ensures listing == [PostSummary("X", "Hello", "alice")]
    ensures view == Found(Post("X", "Hello", "alice", "World"), [ReplyLine("bob", "Hi!")])
    ensures sent == Some(ReportPayload("X", "Hello", "alice", "World", DefaultReason))
  {
    var board := new Store();
    assert ValidateAscii("World") && ValidateAscii("Hi!");
    var created := board.CreatePost(Some("Hello"), Some("alice"), Some("World"), "X");
    var replied := board.ReplyPost(Some("X"), Some("bob"), Some("Hi!"), "R1");
    var hi := Reply("R1", "X", "bob", "Hi!");
    assert board.replies == [hi] && [hi][1..] == [];
    assert RepliesOf([hi], "X") == [LineOf(hi)] + RepliesOf([], "X");
    listing := Index(board.posts);
    view := ViewPost(board.posts, board.replies, "X");
    sent := ReportPost(board.posts, Some("X"), None);
  }

  /** On a board holding one post "X", a 50-character name is rejected and a
      49-character one accepted, and a reply to a post that does not exist
      is stored all the same. */
  method BoundarySession() returns (tooLong: WriteOutcome, justFits: WriteOutcome, orphan: WriteOutcome)
    ensures tooLong == Rejected
    ensures justFits == Inserted("Z")
    ensures orphan == Inserted("R2")
  {
    var board := new Store();
    assert ValidateAscii("World") && ValidateAscii("b") && ValidateAscii("lost");
    var created := board.CreatePost(Some("Hello"), Some("alice"), Some("World"), "X");
    assert board.posts == [Post("X", "Hello", "alice", "World")];
    var fifty := seq(50, _ => 'a');
    assert |fifty| == 50 && |fifty[1..]| == 49;
    tooLong := board.CreatePost(Some(fifty), Some("a"), Some("b"), "Y");
    assert "Z" !in PostIds(board.posts);
    justFits := board.CreatePost(Some(fifty[1..]), Some("a"), Some("b"), "Z");
    assert board.replies == [];
    orphan := board.ReplyPost(Some("nowhere"), Some("bob"), Some("lost"), "R2");
  }
}
