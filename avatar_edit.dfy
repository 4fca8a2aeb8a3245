/**
 * The profile photo editor: upload the chosen file, point the profile at the new
 * URL, then delete the old photo on a best-effort basis. The outcome of every
 * request is an input; the requests and callbacks are recorded in order.
 */
module AvatarEdit {
  import opened Wrappers
  import opened JsValues

  const NoFile: string := "Please choose an image first."
  const NoUrl: string := "Upload succeeded but no image URL was returned."
  const Done: string := "Profile photo updated."
  const Fallback: string := "Failed to update profile photo."

  /** A file picked in the browser, known by its name. */
  datatype File = File(name: string)

  /** The requests and callbacks `handleSubmit` makes, in order. */
  datatype Event =
    | Upload(file: File)
    | UpdateProfile(avatarUrl: Val)
    | DeleteByUrl(url: string)
    | OnUpdated(newUrl: Val)
    | RefetchProfile

  /** The new URL: `data.url`, else `data.secureUrl`, else `url`, else `secureUrl` of the upload response. */
  function NewUrl(res: Val): (r: Val)
    ensures Truthy(r) <==> Truthy(Get(Get(res, "data"), "url")) || Truthy(Get(Get(res, "data"), "secureUrl")) ||
                           Truthy(Get(res, "url")) || Truthy(Get(res, "secureUrl"))
    ensures Truthy(Get(Get(res, "data"), "url")) ==> r == Get(Get(res, "data"), "url")
    ensures !Truthy(Get(Get(res, "data"), "url")) && Truthy(Get(Get(res, "data"), "secureUrl")) ==>
              r == Get(Get(res, "data"), "secureUrl")
    ensures !Truthy(Get(Get(res, "data"), "url")) && !Truthy(Get(Get(res, "data"), "secureUrl")) &&
            Truthy(Get(res, "url")) ==>
              r == Get(res, "url")
    ensures !Truthy(Get(Get(res, "data"), "url")) && !Truthy(Get(Get(res, "data"), "secureUrl")) &&
            !Truthy(Get(res, "url")) ==>
              r == Get(res, "secureUrl")
  {
    Or(Or(Or(Get(Get(res, "data"), "url"), Get(Get(res, "data"), "secureUrl")), Get(res, "url")), Get(res, "secureUrl"))
  }

  /** Both documented response shapes yield their URL. */
  lemma NewUrlOfBothShapes(u: string)
    requires u != ""
    ensures NewUrl(Obj(map["data" := Obj(map["url" := Str(u)])])) == Str(u)
    ensures NewUrl(Obj(map["url" := Str(u)])) == Str(u)
  {
  }

  /** The caught error's text: `data.message`, else `error`, else `message`, else the fixed text. */
  function FailureMessage(e: Val): (r: Val)
    ensures Truthy(r)
    ensures Truthy(Get(Get(e, "data"), "message")) ==> r == Get(Get(e, "data"), "message")
    ensures !Truthy(Get(Get(e, "data"), "message")) && Truthy(Get(e, "error")) ==> r == Get(e, "error")
    ensures !Truthy(Get(Get(e, "data"), "message")) && !Truthy(Get(e, "error")) && Truthy(Get(e, "message")) ==>
              r == Get(e, "message")
    ensures !Truthy(Get(Get(e, "data"), "message")) && !Truthy(Get(e, "error")) && !Truthy(Get(e, "message")) ==>
              r == Str(Fallback)
  {
    Or(Get(Get(e, "data"), "message"), Or(Get(e, "error"), Or(Get(e, "message"), Str(Fallback))))
  }

  /** The missing-URL error thrown by `handleSubmit` is shown with its own text. */
  lemma MissingUrlShowsItsText()
    ensures FailureMessage(ErrorWithMessage(NoUrl)) == Str(NoUrl)
  {
  }

  /** Whether the old photo is deleted: `avatarUrl && avatarUrl !== newUrl`. */
  predicate ReplacesOld(avatarUrl: Option<string>, newUrl: Val) {
    avatarUrl.Some? && avatarUrl.value != "" && Str(avatarUrl.value) != newUrl
  }

  /** What `handleSubmit` leaves behind: the messages and the calls made. */
  datatype SubmitResult = SubmitResult(localError: Option<Val>, localSuccess: Option<string>, calls: seq<Event>)

  /**
   * `handleSubmit`. Without a file nothing is sent. Otherwise the file is uploaded;
   * a response without a URL, or a failed upload or profile update, ends with the
   * caught error's text. After the profile update the old photo is deleted when it
   * is set and differs from the new URL; whatever that request answers is not looked
   * at. Then success is shown, `onUpdated` and `refetchProfile` run when given, and a
   * throwing `onUpdated` or a failing refetch also reaches the error branch.
   */
  function Submit(avatarUrl: Option<string>, file: Option<File>, onUpdated: Callback, hasRefetch: bool,
                         upload: Outcome<Val, Val>, update: Outcome<Val, Val>, refetch: Outcome<Val, Val>): SubmitResult
  {
    if file.None? then SubmitResult(Some(Str(NoFile)), None, [])
    else
      var uploaded := [Upload(file.value)];
      match upload
      case Rejected(e) => SubmitResult(Some(FailureMessage(e)), None, uploaded)
      case Resolved(res) =>
        var newUrl := NewUrl(res);
        if !Truthy(newUrl) then SubmitResult(Some(FailureMessage(ErrorWithMessage(NoUrl))), None, uploaded)
        else
          var after := Persist(avatarUrl, newUrl, onUpdated, hasRefetch, update, refetch);
          after.(calls := uploaded + after.calls)
  }

  /**
   * The steps of `handleSubmit` once the upload gave `newUrl`: the profile update, the
   * best-effort delete of the old photo, success, `onUpdated` and the refetch.
   */
  function Persist(avatarUrl: Option<string>, newUrl: Val, onUpdated: Callback, hasRefetch: bool,
                   update: Outcome<Val, Val>, refetch: Outcome<Val, Val>): SubmitResult
  {
    var updated := [UpdateProfile(newUrl)];
    match update
    case Rejected(e) => SubmitResult(Some(FailureMessage(e)), None, updated)
    case Resolved(_) =>
      var after := Saved(avatarUrl, newUrl, onUpdated, hasRefetch, refetch);
      after.(calls := updated + after.calls)
  }

  /**
   * The steps after the profile was updated: the best-effort delete, success,
   * `onUpdated`, the refetch. An `onUpdated` that throws skips the refetch and its
   * error is shown beside the success text.
   */
  function Saved(avatarUrl: Option<string>, newUrl: Val, onUpdated: Callback, hasRefetch: bool,
                 refetch: Outcome<Val, Val>): SubmitResult
  {
    var deleted := if ReplacesOld(avatarUrl, newUrl) then [DeleteByUrl(avatarUrl.value)] else [];
    match onUpdated
    case Throws(e) => SubmitResult(Some(FailureMessage(e)), Some(Done), deleted + [OnUpdated(newUrl)])
    case _ =>
      var notified := deleted + (if onUpdated.Returns? then [OnUpdated(newUrl)] else []);
      if !hasRefetch then SubmitResult(None, Some(Done), notified)
      else
        var refetched := notified + [RefetchProfile];
        match refetch
        case Resolved(_) => SubmitResult(None, Some(Done), refetched)
        case Rejected(e) => SubmitResult(Some(FailureMessage(e)), Some(Done), refetched)
  }

  /** Without a file only the error is set: nothing is uploaded, updated or deleted. */
  lemma NoFileNoCalls(avatarUrl: Option<string>, onUpdated: Callback, hasRefetch: bool,
                      upload: Outcome<Val, Val>, update: Outcome<Val, Val>, refetch: Outcome<Val, Val>)
    ensures Submit(avatarUrl, None, onUpdated, hasRefetch, upload, update, refetch) ==
              SubmitResult(Some(Str(NoFile)), None, [])
  {
  }

  /** An upload that returns no URL stops before the profile is touched. */
  lemma NoUrlNoUpdate(avatarUrl: Option<string>, f: File, onUpdated: Callback, hasRefetch: bool,
                      res: Val, update: Outcome<Val, Val>, refetch: Outcome<Val, Val>)
    requires !Truthy(NewUrl(res))
    ensures var o := Submit(avatarUrl, Some(f), onUpdated, hasRefetch, Resolved(res), update, refetch);
      o.calls == [Upload(f)] && o.localError == Some(Str(NoUrl)) && o.localSuccess.None?
  {
  }

  /** The calls always begin with the upload, and the profile update comes second. */
  lemma UploadThenUpdate(avatarUrl: Option<string>, f: File, onUpdated: Callback, hasRefetch: bool,
                         upload: Outcome<Val, Val>, update: Outcome<Val, Val>, refetch: Outcome<Val, Val>)
    ensures var o := Submit(avatarUrl, Some(f), onUpdated, hasRefetch, upload, update, refetch);
      |o.calls| >= 1 && o.calls[0] == Upload(f) &&
      (forall i :: 0 <= i < |o.calls| && o.calls[i].UpdateProfile? ==> i == 1)
  {
  }

  /**
   * The old photo is deleted exactly when the upload gave a URL, the profile now
   * points at it, and the old URL is set and different; the deletion comes after the
   * profile update.
   */
  lemma DeleteOnlyAfterUpdate(avatarUrl: Option<string>, f: File, onUpdated: Callback, hasRefetch: bool,
                              upload: Outcome<Val, Val>, update: Outcome<Val, Val>, refetch: Outcome<Val, Val>)
    ensures var o := Submit(avatarUrl, Some(f), onUpdated, hasRefetch, upload, update, refetch);
      (avatarUrl.Some? && DeleteByUrl(avatarUrl.value) in o.calls) <==>
        upload.Resolved? && Truthy(NewUrl(upload.value)) && update.Resolved? &&
        ReplacesOld(avatarUrl, NewUrl(upload.value))
    ensures var o := Submit(avatarUrl, Some(f), onUpdated, hasRefetch, upload, update, refetch);
      forall i :: 0 <= i < |o.calls| && o.calls[i].DeleteByUrl? ==>
        i == 2 && o.calls[1] == UpdateProfile(NewUrl(upload.value))
  {
    var o := Submit(avatarUrl, Some(f), onUpdated, hasRefetch, upload, update, refetch);
    if upload.Resolved? && Truthy(NewUrl(upload.value)) {
      var p := Persist(avatarUrl, NewUrl(upload.value), onUpdated, hasRefetch, update, refetch);
      PersistDeletesAfterUpdate(avatarUrl, NewUrl(upload.value), onUpdated, hasRefetch, update, refetch);
      assert o.calls == [Upload(f)] + p.calls;
      if avatarUrl.Some? && DeleteByUrl(avatarUrl.value) in o.calls {
        assert DeleteByUrl(avatarUrl.value) in p.calls;
      }
    }
  }

  /** Within `Persist`, the only possible delete is of the old photo, right after the profile update. */
  lemma PersistDeletesAfterUpdate(avatarUrl: Option<string>, newUrl: Val, onUpdated: Callback, hasRefetch: bool,
                                  update: Outcome<Val, Val>, refetch: Outcome<Val, Val>)
    ensures var p := Persist(avatarUrl, newUrl, onUpdated, hasRefetch, update, refetch);
      |p.calls| >= 1 && p.calls[0] == UpdateProfile(newUrl) &&
      (avatarUrl.Some? && DeleteByUrl(avatarUrl.value) in p.calls <==> update.Resolved? && ReplacesOld(avatarUrl, newUrl)) &&
      (forall i :: 0 <= i < |p.calls| && p.calls[i].DeleteByUrl? ==> i == 1)
  {
  }

  /**
   * A successful update is reported, and `onUpdated` told the new URL, whatever
   * happens to the old photo; a failed upload or update reports an error and does
   * not call `onUpdated`.
   */
  lemma UpdatedIffProfileSaved(avatarUrl: Option<string>, f: File, onUpdated: Callback, hasRefetch: bool,
                               upload: Outcome<Val, Val>, update: Outcome<Val, Val>, refetch: Outcome<Val, Val>)
    ensures var o := Submit(avatarUrl, Some(f), onUpdated, hasRefetch, upload, update, refetch);
      var saved := upload.Resolved? && Truthy(NewUrl(upload.value)) && update.Resolved?;
      (o.localSuccess == Some(Done) <==> saved) &&
      (saved ==> (OnUpdated(NewUrl(upload.value)) in o.calls <==> !onUpdated.Absent?)) &&
      (!saved ==> o.localError.Some? && (forall i :: 0 <= i < |o.calls| ==> !o.calls[i].OnUpdated?))
  {
  }

  /**
   * The profile is refetched exactly when it was saved, `refetchProfile` is given and
   * `onUpdated` did not throw; a throwing `onUpdated` leaves its error beside the
   * success text.
   */
  lemma RefetchUnlessNotifyThrows(avatarUrl: Option<string>, f: File, onUpdated: Callback, hasRefetch: bool,
                                  upload: Outcome<Val, Val>, update: Outcome<Val, Val>, refetch: Outcome<Val, Val>)
    ensures var o := Submit(avatarUrl, Some(f), onUpdated, hasRefetch, upload, update, refetch);
      var saved := upload.Resolved? && Truthy(NewUrl(upload.value)) && update.Resolved?;
      (RefetchProfile in o.calls <==> saved && hasRefetch && !onUpdated.Throws?) &&
      (saved && onUpdated.Throws? ==>
         o.localError == Some(FailureMessage(onUpdated.error)) && o.localSuccess == Some(Done))
  {
  }

  class AvatarEditor {
    /** The `avatarUrl` prop: the current photo. */
    const avatarUrl: Option<string>
    const hasRefetch: bool

    var open: bool
    var file: Option<File>
    var localError: Option<Val>
    var localSuccess: Option<string>
    /** Every request and callback made so far, in order. */
    ghost var calls: seq<Event>

    constructor (avatarUrl: Option<string>, hasRefetch: bool)
      ensures this.avatarUrl == avatarUrl && this.hasRefetch == hasRefetch
      ensures !open && file.None? && localError.None? && localSuccess.None? && calls == []
    {
      this.avatarUrl := avatarUrl;
      this.hasRefetch := hasRefetch;
      open, file, localError, localSuccess := false, None, None, None;
      calls := [];
    }

    /** The pencil button. */
    method OpenEditor()
      modifies this
      ensures open && file == old(file) && localError == old(localError) && localSuccess == old(localSuccess)
      ensures calls == old(calls)
    {
      open := true;
    }

    /** `close`: refused while a request is in flight; otherwise closes and forgets the file and messages. */
    method Close(busy: bool)
      modifies this
      ensures calls == old(calls)
      ensures busy ==> open == old(open) && file == old(file) && localError == old(localError) &&
                       localSuccess == old(localSuccess)
      ensures !busy ==> !open && file.None? && localError.None? && localSuccess.None?
    {
      if busy {
        return;
      }
      open := false;
      file := None;
      localError := None;
      localSuccess := None;
    }

    /** The file input's `onChange`: the messages go away and the first picked file (if any) is kept. */
    method FileChosen(f: Option<File>)
      modifies this
      ensures file == f && localError.None? && localSuccess.None? && open == old(open) && calls == old(calls)
    {
      localError := None;
      localSuccess := None;
      file := f;
    }

    /** `handleSubmit`, as specified by `Submit`; `onUpdated` is the prop as this call finds it. */
    method HandleSubmit(onUpdated: Callback, upload: Outcome<Val, Val>, update: Outcome<Val, Val>, refetch: Outcome<Val, Val>)
      modifies this
      ensures var o := Submit(avatarUrl, old(file), onUpdated, hasRefetch, upload, update, refetch);
        localError == o.localError && localSuccess == o.localSuccess && calls == old(calls) + o.calls
      ensures open == old(open) && file == old(file)
    {
      localError := None;
      localSuccess := None;
      if file.None? {
        localError := Some(Str(NoFile));
        return;
      }
      calls := calls + [Upload(file.value)];
      if upload.Rejected? {
        localError := Some(FailureMessage(upload.error));
        return;
      }
      var newUrl := NewUrl(upload.value);
      if !Truthy(newUrl) {
        localError := Some(FailureMessage(ErrorWithMessage(NoUrl)));
        return;
      }
      PersistPhoto(newUrl, onUpdated, update, refetch);
    }

    /** The steps after a successful upload, as specified by `Persist`. */
    method PersistPhoto(newUrl: Val, onUpdated: Callback, update: Outcome<Val, Val>, refetch: Outcome<Val, Val>)
      requires localError.None? && localSuccess.None?
      modifies this
      ensures var o := Persist(avatarUrl, newUrl, onUpdated, hasRefetch, update, refetch);
        localError == o.localError && localSuccess == o.localSuccess && calls == old(calls) + o.calls
      ensures open == old(open) && file == old(file)
    {
      calls := calls + [UpdateProfile(newUrl)];
      if update.Rejected? {
        localError := Some(FailureMessage(update.error));
        return;
      }
      FinishSave(newUrl, onUpdated, refetch);
    }

    /** The steps after the profile update succeeded, as specified by `Saved`. */
    method FinishSave(newUrl: Val, onUpdated: Callback, refetch: Outcome<Val, Val>)
      requires localError.None? && localSuccess.None?
      modifies this
      ensures var o := Saved(avatarUrl, newUrl, onUpdated, hasRefetch, refetch);
        localError == o.localError && localSuccess == o.localSuccess && calls == old(calls) + o.calls
      ensures open == old(open) && file == old(file)
    {
      ghost var made: seq<Event> := [];
      if ReplacesOld(avatarUrl, newUrl) {
        made := [DeleteByUrl(avatarUrl.value)];
      }
      localSuccess := Some(Done);
      if !onUpdated.Absent? {
        made := made + [OnUpdated(newUrl)];
      }
      if onUpdated.Throws? {
        localError := Some(FailureMessage(onUpdated.error));
      } else if hasRefetch {
        made := made + [RefetchProfile];
        if refetch.Rejected? {
          localError := Some(FailureMessage(refetch.error));
        }
      }
      calls := calls + made;
    }
  }
}
