/**
 * The post page's comment section: normalising whichever response shape the comments
 * endpoint returns, the ownership check for editing, and the submit / edit / delete
 * handlers with their guards. Dialog answers and request outcomes are inputs.
 */
module CommentSection {
  import opened Wrappers
  import opened JsStrings
  import opened JsValues

  /** A comment as the section renders it; every field is whatever the response held. */
  datatype UiComment = UiComment(
    id: Val,
    content: Val,
    createdAt: Val,
    status: Val,
    repliesCount: Val,
    authorName: Val,
    authorUuid: Val)

  predicate IsArray(v: Val) {
    v.Arr?
  }

  /** The `payload` chain: which level of the response is taken to hold `{ data, meta }`. */
  function Payload(raw: Val): Val {
    var d := Get(raw, "data");
    var dd := Get(d, "data");
    var ddd := Get(dd, "data");
    if Truthy(dd) && IsArray(dd) then d
    else if Truthy(ddd) && IsArray(ddd) then dd
    else if Truthy(d) && IsArray(d) then Obj(map["data" := d, "meta" := Null])
    else if Truthy(dd) && IsArray(dd) then d
    else if Truthy(ddd) then dd
    else Null
  }

  /** `raw?.data?.data?.data ?? raw?.data?.data ?? raw?.data ?? payload?.data ?? []`. */
  function List(raw: Val): Val {
    Coalesce(Get(Get(Get(raw, "data"), "data"), "data"),
      Coalesce(Get(Get(raw, "data"), "data"),
        Coalesce(Get(raw, "data"),
          Coalesce(Get(Payload(raw), "data"), Arr([])))))
  }

  /** `raw?.data?.data?.meta ?? raw?.data?.meta ?? payload?.meta ?? null`. */
  function Meta(raw: Val): Val {
    Coalesce(Get(Get(Get(raw, "data"), "data"), "meta"),
      Coalesce(Get(Get(raw, "data"), "meta"),
        Coalesce(Get(Payload(raw), "meta"), Null)))
  }

  /** The list and meta chains without the `payload` fallbacks. */
  function ListDirect(raw: Val): Val {
    Coalesce(Get(Get(Get(raw, "data"), "data"), "data"),
      Coalesce(Get(Get(raw, "data"), "data"), Coalesce(Get(raw, "data"), Arr([]))))
  }

  function MetaDirect(raw: Val): Val {
    Coalesce(Get(Get(Get(raw, "data"), "data"), "meta"), Coalesce(Get(Get(raw, "data"), "meta"), Null))
  }

  /**
   * The `payload` fallbacks never contribute: whenever a payload exists, `raw.data`
   * is present and already ends the list chain, and its `meta` was already consulted.
   */
  lemma PayloadNeverContributes(raw: Val)
    ensures List(raw) == ListDirect(raw)
    ensures Meta(raw) == MetaDirect(raw)
  {
  }

  /** One comment: `_id`, `content ?? ""`, the author name chain ending in "Anonymous", `author.uuid ?? null`. */
  function NormalizeComment(c: Val): (r: UiComment)
    ensures !Nullish(r.content) && Truthy(r.authorName) && r.authorUuid != Undef
    ensures r.content == Coalesce(Get(c, "content"), Str(""))
    ensures r.id == Get(c, "_id")
    ensures r.createdAt == Get(c, "createdAt") && r.status == Get(c, "status") &&
            r.repliesCount == Get(c, "repliesCount")
    ensures Truthy(Get(Get(c, "author"), "displayName")) ==> r.authorName == Get(Get(c, "author"), "displayName")
    ensures !Truthy(Get(Get(c, "author"), "displayName")) && Truthy(Get(Get(c, "author"), "name")) ==>
              r.authorName == Get(Get(c, "author"), "name")
    ensures !Truthy(Get(Get(c, "author"), "displayName")) && !Truthy(Get(Get(c, "author"), "name")) &&
            Truthy(Get(Get(c, "author"), "username")) ==>
              r.authorName == Get(Get(c, "author"), "username")
    ensures !Truthy(Get(Get(c, "author"), "displayName")) && !Truthy(Get(Get(c, "author"), "name")) &&
            !Truthy(Get(Get(c, "author"), "username")) ==>
              r.authorName == Str("Anonymous")
    ensures Nullish(Get(Get(c, "author"), "uuid")) ==> r.authorUuid == Null
    ensures !Nullish(Get(Get(c, "author"), "uuid")) ==> r.authorUuid == Get(Get(c, "author"), "uuid")
  {
    var author := Get(c, "author");
    UiComment(
      Get(c, "_id"),
      Coalesce(Get(c, "content"), Str("")),
      Get(c, "createdAt"),
      Get(c, "status"),
      Get(c, "repliesCount"),
      Or(Get(author, "displayName"), Or(Get(author, "name"), Or(Get(author, "username"), Str("Anonymous")))),
      Coalesce(Get(author, "uuid"), Null))
  }

  /** The normalised section: the comments and the `total` shown in the heading. */
  datatype Section = Section(comments: seq<UiComment>, total: Val)

  /**
   * The `useMemo` normalisation. `(list || []).map` fails on a truthy list that is
   * not an array, which is None here.
   */
  function Normalize(raw: Val): (r: Option<Section>)
    ensures r.Some? <==> !Truthy(List(raw)) || IsArray(List(raw))
    ensures r.Some? && IsArray(List(raw)) ==> |r.value.comments| == |List(raw).items|
    ensures r.Some? && IsArray(List(raw)) ==>
              forall i :: 0 <= i < |r.value.comments| ==> r.value.comments[i] == NormalizeComment(List(raw).items[i])
    ensures r.Some? && !Truthy(List(raw)) ==> r.value.comments == []
    ensures r.Some? && !Nullish(Get(Meta(raw), "total")) ==> r.value.total == Get(Meta(raw), "total")
    ensures r.Some? && Nullish(Get(Meta(raw), "total")) ==> r.value.total == Num(|r.value.comments|)
  {
    var list := Or(List(raw), Arr([]));
    if !IsArray(list) then None
    else
      var items := list.items;
      var comments := seq(|items|, i requires 0 <= i < |items| => NormalizeComment(items[i]));
      Some(Section(comments, Coalesce(Get(Meta(raw), "total"), Num(|comments|))))
  }

  /** A paginated envelope `{ data: { data: [..], meta } }` yields its inner list and its meta total. */
  lemma PaginatedEnvelope(items: seq<Val>, meta: Val)
    requires !Nullish(meta) && !Nullish(Get(meta, "total"))
    ensures var r := Normalize(Obj(map["data" := Obj(map["data" := Arr(items), "meta" := meta])]));
      r.Some? && |r.value.comments| == |items| && r.value.total == Get(meta, "total")
  {
  }

  /** A bare array `{ data: [..] }` yields that list, and the total is its length. */
  lemma BareArray(items: seq<Val>)
    ensures var r := Normalize(Obj(map["data" := Arr(items)]));
      r.Some? && |r.value.comments| == |items| && r.value.total == Num(|items|)
  {
  }

  /** Nothing loaded yet: no comments and a total of zero. */
  lemma NothingLoaded()
    ensures Normalize(Undef) == Some(Section([], Num(0)))
  {
  }

  /** `canEdit`: signed in, the comment has an author uuid, and the two are the same. */
  predicate CanEdit(sessionUuid: Option<string>, c: UiComment) {
    sessionUuid.Some? && sessionUuid.value != "" && Truthy(c.authorUuid) && Str(sessionUuid.value) == c.authorUuid
  }

  /** Ownership is exact: the comment's author uuid is the session's non-empty uuid. */
  lemma CanEditIffSameAuthor(sessionUuid: Option<string>, c: UiComment)
    ensures CanEdit(sessionUuid, c) <==> exists u :: u != "" && sessionUuid == Some(u) && c.authorUuid == Str(u)
  {
    if CanEdit(sessionUuid, c) {
      assert sessionUuid.value != "" && sessionUuid == Some(sessionUuid.value) && c.authorUuid == Str(sessionUuid.value);
    }
  }

  /** A comment whose author is unknown (normalised to null) is never editable. */
  lemma AnonymousNotEditable(sessionUuid: Option<string>, c: Val)
    requires Nullish(Get(Get(c, "author"), "uuid"))
    ensures !CanEdit(sessionUuid, NormalizeComment(c))
  {
  }

  const WriteFirst: string := "Please write a comment first."
  const Submitted: string := "Comment submitted! It may appear after approval."
  const SubmitFailed: string := "Failed to submit comment. Please try again."
  const EmptyEdit: string := "Comment cannot be empty."
  const UpdateFailed: string := "Failed to update comment. Please try again."
  const DeleteFailed: string := "Failed to delete comment. Please try again."

  /** A request's error text: `data.message`, else `error`, else the handler's own text. */
  function RequestError(err: Val, fallback: string): (r: Val)
    ensures fallback != "" ==> Truthy(r)
    ensures Truthy(Get(Get(err, "data"), "message")) ==> r == Get(Get(err, "data"), "message")
    ensures !Truthy(Get(Get(err, "data"), "message")) && Truthy(Get(err, "error")) ==> r == Get(err, "error")
    ensures !Truthy(Get(Get(err, "data"), "message")) && !Truthy(Get(err, "error")) ==> r == Str(fallback)
  {
    Or(Get(Get(err, "data"), "message"), Or(Get(err, "error"), Str(fallback)))
  }

  /** The requests the section makes, in order. */
  datatype Event =
    | CreateComment(postId: string, content: string)
    | UpdateComment(id: Val, content: string)
    | DeleteComment(id: Val)
    | Refetch

  /** `(edit.content || "")`, which `handleUpdate` trims; a non-string there makes `trim` throw. */
  function EditText(editContent: Val): Val {
    Or(editContent, Str(""))
  }

  /** The edit dialog holds an id and a text that trims to something: an update may be sent. */
  predicate UpdateReady(editContent: Val, editId: Val) {
    EditText(editContent).Str? && Truthy(editId) && !AllWs(EditText(editContent).s)
  }

  /** The edit dialog holds an id but its text is blank. */
  predicate EditBlank(editContent: Val, editId: Val) {
    EditText(editContent).Str? && Truthy(editId) && AllWs(EditText(editContent).s)
  }

  /** The text an update sends. */
  function EditedText(editContent: Val): (r: string)
    requires EditText(editContent).Str?
    ensures IsTrimmed(r)
    ensures r == "" <==> AllWs(EditText(editContent).s)
  {
    TrimIsTrimmed(EditText(editContent).s);
    TrimEmptyIffAllWs(EditText(editContent).s);
    Trim(EditText(editContent).s)
  }

  class CommentSectionState {
    const postId: string

    var message: string
    var localError: Option<Val>
    var localSuccess: Option<string>
    var editOpen: bool
    var editId: Val
    var editContent: Val
    var editError: Option<Val>

    constructor (postId: string)
      ensures this.postId == postId
      ensures message == "" && localError.None? && localSuccess.None?
      ensures !editOpen && editId == Null && editContent == Str("") && editError.None?
    {
      this.postId := postId;
      message, localError, localSuccess := "", None, None;
      editOpen, editId, editContent, editError := false, Null, Str(""), None;
    }

    /** The comment form's `onChange`. */
    method MessageChanged(v: string)
      modifies this
      ensures message == v
      ensures localError == old(localError) && localSuccess == old(localSuccess)
      ensures editOpen == old(editOpen) && editId == old(editId) && editContent == old(editContent) &&
              editError == old(editError)
    {
      message := v;
    }

    /** `openEdit`: the edit dialog opens on the comment's id and text. */
    method OpenEdit(c: UiComment)
      modifies this
      ensures editOpen && editId == c.id && editContent == Or(c.content, Str("")) && editError.None?
      ensures message == old(message) && localError == old(localError) && localSuccess == old(localSuccess)
    {
      editError := None;
      editOpen, editId, editContent := true, c.id, Or(c.content, Str(""));
    }

    /** `closeEdit`: closed, no id, empty text, no error. */
    method CloseEdit()
      modifies this
      ensures !editOpen && editId == Null && editContent == Str("") && editError.None?
      ensures message == old(message) && localError == old(localError) && localSuccess == old(localSuccess)
    {
      editOpen, editId, editContent := false, Null, Str("");
      editError := None;
    }

    /** The edit textarea's `onChange`, which stores `String(val)`. */
    method EditChanged(v: string)
      modifies this
      ensures editContent == Str(v)
      ensures editOpen == old(editOpen) && editId == old(editId) && editError == old(editError)
      ensures message == old(message) && localError == old(localError) && localSuccess == old(localSuccess)
    {
      editContent := Str(v);
    }

    /**
     * `handleSubmit`: a blank message is refused without a request; otherwise the
     * trimmed message is posted; success clears the form and refetches, failure
     * shows the request's error.
     */
    method HandleSubmit(settled: Outcome<Val, Val>) returns (calls: seq<Event>)
      modifies this
      ensures AllWs(old(message)) ==>
        calls == [] && localError == Some(Str(WriteFirst)) && localSuccess.None? && message == old(message)
      ensures !AllWs(old(message)) && settled.Resolved? ==>
        calls == [CreateComment(postId, Trim(old(message))), Refetch] &&
        message == "" && localError.None? && localSuccess == Some(Submitted)
      ensures !AllWs(old(message)) && settled.Rejected? ==>
        calls == [CreateComment(postId, Trim(old(message)))] && message == old(message) &&
        localError == Some(RequestError(settled.error, SubmitFailed)) && localSuccess.None?
      ensures editOpen == old(editOpen) && editId == old(editId) && editContent == old(editContent) &&
              editError == old(editError)
    {
      localError := None;
      localSuccess := None;
      if AllWs(message) {
        localError := Some(Str(WriteFirst));
        return [];
      }
      TrimEmptyIffAllWs(message);
      calls := SendComment(Trim(message), settled);
    }

    /** The part of `handleSubmit` after the blank check: the request and its settlement. */
    method SendComment(content: string, settled: Outcome<Val, Val>) returns (calls: seq<Event>)
      requires localError.None? && localSuccess.None?
      modifies this
      ensures settled.Resolved? ==>
        calls == [CreateComment(postId, content), Refetch] &&
        message == "" && localError.None? && localSuccess == Some(Submitted)
      ensures settled.Rejected? ==>
        calls == [CreateComment(postId, content)] && message == old(message) &&
        localError == Some(RequestError(settled.error, SubmitFailed)) && localSuccess.None?
      ensures editOpen == old(editOpen) && editId == old(editId) && editContent == old(editContent) &&
              editError == old(editError)
    {
      calls := [CreateComment(postId, content)];
      if settled.Resolved? {
        message := "";
        localSuccess := Some(Submitted);
        calls := calls + [Refetch];
      } else {
        localError := Some(RequestError(settled.error, SubmitFailed));
      }
    }

    /** The 2.5 s timer that hides the success message. */
    method SuccessTimerFired()
      modifies this
      ensures localSuccess.None? && localError == old(localError) && message == old(message)
      ensures editOpen == old(editOpen) && editId == old(editId) && editContent == old(editContent) &&
              editError == old(editError)
    {
      localSuccess := None;
    }

    /**
     * `handleUpdate`: the edit text (which must be a string to be trimmed) is trimmed;
     * without an id nothing happens; blank text is refused; a declined confirmation
     * stops; otherwise the update is sent, and success refetches and closes the dialog
     * while failure shows the request's error in it.
     */
    method HandleUpdate(confirmed: bool, settled: Outcome<Val, Val>) returns (calls: seq<Event>)
      modifies this
      ensures message == old(message) && localError == old(localError) && localSuccess == old(localSuccess)
      ensures !UpdateReady(old(editContent), old(editId)) || !confirmed ==>
        calls == [] && editOpen == old(editOpen) && editId == old(editId) && editContent == old(editContent)
      ensures !UpdateReady(old(editContent), old(editId)) || !confirmed ==>
        editError == (if EditBlank(old(editContent), old(editId)) then Some(Str(EmptyEdit)) else None)
      ensures UpdateReady(old(editContent), old(editId)) && confirmed && settled.Resolved? ==>
        calls == [UpdateComment(old(editId), EditedText(old(editContent))), Refetch] &&
        !editOpen && editId == Null && editContent == Str("") && editError.None?
      ensures UpdateReady(old(editContent), old(editId)) && confirmed && settled.Rejected? ==>
        calls == [UpdateComment(old(editId), EditedText(old(editContent)))] &&
        editOpen == old(editOpen) && editId == old(editId) && editContent == old(editContent) &&
        editError == Some(RequestError(settled.error, UpdateFailed))
    {
      editError := None;
      if !EditText(editContent).Str? || !Truthy(editId) {
        return [];
      }
      if EditBlank(editContent, editId) {
        editError := Some(Str(EmptyEdit));
        return [];
      }
      if !confirmed {
        return [];
      }
      calls := SendUpdate(EditedText(editContent), settled);
    }

    /** The part of `handleUpdate` after the confirmation: the request and its settlement. */
    method SendUpdate(content: string, settled: Outcome<Val, Val>) returns (calls: seq<Event>)
      modifies this
      ensures message == old(message) && localError == old(localError) && localSuccess == old(localSuccess)
      ensures settled.Resolved? ==>
        calls == [UpdateComment(old(editId), content), Refetch] &&
        !editOpen && editId == Null && editContent == Str("") && editError.None?
      ensures settled.Rejected? ==>
        calls == [UpdateComment(old(editId), content)] &&
        editOpen == old(editOpen) && editId == old(editId) && editContent == old(editContent) &&
        editError == Some(RequestError(settled.error, UpdateFailed))
    {
      calls := [UpdateComment(editId, content)];
      if settled.Resolved? {
        calls := calls + [Refetch];
        CloseEdit();
      } else {
        editError := Some(RequestError(settled.error, UpdateFailed));
      }
    }

    /**
     * `handleDelete`: the section's messages are cleared; a declined confirmation
     * stops; otherwise the delete is sent, success refetches and failure shows the
     * request's error.
     */
    method HandleDelete(id: Val, confirmed: bool, settled: Outcome<Val, Val>) returns (calls: seq<Event>)
      modifies this
      ensures !confirmed ==> calls == [] && localError.None? && localSuccess.None?
      ensures confirmed && settled.Resolved? ==> calls == [DeleteComment(id), Refetch] && localError.None?
      ensures confirmed && settled.Rejected? ==>
        calls == [DeleteComment(id)] && localError == Some(RequestError(settled.error, DeleteFailed))
      ensures localSuccess.None? && message == old(message)
      ensures editOpen == old(editOpen) && editId == old(editId) && editContent == old(editContent) &&
              editError == old(editError)
    {
      localError := None;
      localSuccess := None;
      if !confirmed {
        return [];
      }
      calls := [DeleteComment(id)];
      if settled.Resolved? {
        calls := calls + [Refetch];
      } else {
        localError := Some(RequestError(settled.error, DeleteFailed));
      }
    }
  }
}
