/** The write guards: the ASCII check on content and the two conditions
    under which a post or a reply is inserted (postify.py, validate_ascii,
    create_post and reply_post). */
module Validation {
  import opened Schema

  /** `validate_ascii`: encoding the text as US-ASCII succeeds exactly when
      no character lies outside code points 0..127. */
  function ValidateAscii(text: string): (ok: bool)
    ensures ok <==> IsAscii(text)
  {
    if text == [] then true
    else text[0] as int < AsciiLimit && ValidateAscii(text[1..])
  }

  /** The create-post guard: the request is inserted only when all three
      fields are filled, the content is ASCII, the name is shorter than 50
      characters and the content shorter than 5000. */
  function CreatePostGuard(name: Option<string>, author: Option<string>, content: Option<string>): (ok: bool)
    ensures ok <==>
      && Filled(name) && Filled(author) && Filled(content)
      && IsAscii(content.value)
      && |name.value| < NameLimit
      && |content.value| < ContentLimit
    ensures ok ==> forall id :: GoodPost(Post(id, name.value, author.value, content.value))
  {
    if !(Filled(name) && Filled(author) && Filled(content)) then false
    else ValidateAscii(content.value) && |name.value| < NameLimit && |content.value| < ContentLimit
  }

  /** The reply guard: all three fields filled and ASCII content. There is
      no length bound, and whether `postId` names a stored post is not
      asked. */
  function ReplyGuard(postId: Option<string>, author: Option<string>, content: Option<string>): (ok: bool)
    ensures ok <==> Filled(postId) && Filled(author) && Filled(content) && IsAscii(content.value)
    ensures ok ==> forall id :: GoodReply(Reply(id, postId.value, author.value, content.value))
  {
    if !(Filled(postId) && Filled(author) && Filled(content)) then false
    else ValidateAscii(content.value)
  }

  /** One character outside US-ASCII anywhere in the content makes both
      writes reject. */
  lemma NonAsciiContentRejected(content: string, i: nat, name: Option<string>, author: Option<string>, postId: Option<string>)
    requires i < |content| && content[i] as int >= AsciiLimit
    ensures !CreatePostGuard(name, author, Some(content))
    ensures !ReplyGuard(postId, author, Some(content))
  {
  }

  /** For a filled author and an ASCII one-character content, a name is
      accepted exactly when it is non-empty and shorter than 50 characters:
      49 characters pass, 50 do not. */
  lemma NameLengthBoundary(name: string)
    ensures CreatePostGuard(Some(name), Some("a"), Some("b")) <==> 0 < |name| < NameLimit
  {
  }

  /** Name and author are not checked for ASCII: a post whose name and
      author are outside US-ASCII is accepted. */
  lemma NameAndAuthorNotAsciiChecked()
    ensures CreatePostGuard(Some("Café"), Some("Zoë"), Some("hi"))
    ensures ReplyGuard(Some("p"), Some("Zoë"), Some("hi"))
  {
  }

  /** A reply's content has no length ceiling: any filled ASCII content is
      accepted, however long, in contrast to a post's. */
  lemma ReplyContentUnbounded(postId: string, author: string, content: string)
    requires postId != "" && author != "" && content != "" && IsAscii(content)
    ensures ReplyGuard(Some(postId), Some(author), Some(content))
    ensures |content| >= ContentLimit ==> !CreatePostGuard(Some("n"), Some(author), Some(content))
  {
  }
}
