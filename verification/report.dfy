/** The payload of `report_post` (postify.py): a snapshot of the reported
    post plus the reporter's reason. Delivering it to the webhook is
    network I/O and is not part of this model; only the value that would be
    sent, or the absence of any send, is. */
module Report {
  import opened Schema
  import opened Queries

  /** `request.form.get("reason", "No reason provided")`'s default. */
  const DefaultReason := "No reason provided"

  /** The JSON body `{post_id, post_name, author, content, reason}`. */
  datatype ReportPayload =
    ReportPayload(postId: string, postName: string, author: string, content: string, reason: string)

  /** The payload `report_post` would send, or None when nothing is sent.
      An absent `post_id` field looks up `WHERE id = NULL`, which matches no
      row, so it sends nothing as well. */
  function ReportPost(posts: seq<Post>, postId: Option<string>, reason: Option<string>): (r: Option<ReportPayload>)
    ensures r.None? <==> postId.None? || postId.value !in PostIds(posts)
    ensures r.Some? ==> r.value.postId == postId.value
    ensures r.Some? ==> Post(r.value.postId, r.value.postName, r.value.author, r.value.content) in posts
    ensures r.Some? && reason.None? ==> r.value.reason == DefaultReason
    ensures r.Some? && reason.Some? ==> r.value.reason == reason.value
  {
    if postId.None? then None
    else
      match FindPost(posts, postId.value)
      case None => None
      case Some(p) =>
        var why := if reason.Some? then reason.value else DefaultReason;
        Some(ReportPayload(p.id, p.name, p.author, p.content, why))
  }

  /** With distinct post ids, reporting a stored post sends exactly that post's
      four stored fields; a reason that is present but empty is sent as it
      is, and only an absent one becomes the default. */
  lemma ReportMatchesStored(posts: seq<Post>, p: Post, reason: Option<string>)
    requires forall j, k :: 0 <= j < k < |posts| ==> posts[j].id != posts[k].id
    requires p in posts
    ensures ReportPost(posts, Some(p.id), reason) ==
      Some(ReportPayload(p.id, p.name, p.author, p.content,
                         if reason.None? then DefaultReason else reason.value))
  {
    FindPostUnique(posts, p);
  }
}
