/**
 * `confirmDeleteById`: ask for confirmation, run the caller's delete, and map what
 * happened to a tagged result while showing the matching dialogs. The user's answer
 * and the delete's settlement are inputs; the dialogs and the call are a trace.
 */
module SwalConfirmation {
  import opened Wrappers
  import opened JsValues

  /** The texts a caller may override. */
  datatype Setting =
    | Title | Text | ConfirmButtonText | CancelButtonText
    | LoadingTitle | LoadingText
    | SuccessTitle | SuccessText
    | ErrorTitle | ErrorText
    | CancelledTitle | CancelledText

  /** The text used for a setting the caller leaves out. */
  function Default(k: Setting): string {
    match k
    case Title => "Are you sure?"
    case Text => "You won't be able to revert this!"
    case ConfirmButtonText => "Yes, delete it!"
    case CancelButtonText => "No, cancel!"
    case LoadingTitle => "Deleting..."
    case LoadingText => "Please wait while we process your request."
    case SuccessTitle => "Deleted!"
    case SuccessText => "Item has been deleted successfully."
    case ErrorTitle => "Failed!"
    case ErrorText => "Delete failed. Please try again."
    case CancelledTitle => "Cancelled"
    case CancelledText => "Your item is safe."
  }

  /**
   * The destructuring defaults: a given setting is used as given (even when empty),
   * an omitted one takes its default.
   */
  function SettingOf(opts: map<Setting, string>, k: Setting): (r: string)
    ensures k in opts ==> r == opts[k]
    ensures k !in opts ==> r == Default(k)
  {
    if k in opts then opts[k] else Default(k)
  }

  /** With no options at all, every dialog shows the documented default texts. */
  lemma NoOptionsGiveDefaults(k: Setting)
    ensures SettingOf(map[], k) == Default(k)
    ensures Default(k) != ""
  {
  }

  datatype Icon = Warning | Info | SuccessIcon | ErrorIcon

  /** How the first dialog was closed: confirmed, or dismissed for a reason. */
  datatype DismissReason = Cancel | Backdrop | Close | Esc | Timer
  datatype Answer = Confirmed | Dismissed(reason: DismissReason)

  /** The dialogs shown and the delete call made, in order. */
  datatype Event =
    | Dialog(title: string, text: string, icon: Icon)
    | OnDelete(id: Val)
    | CloseDialog

  /** `ConfirmDeleteResult`. */
  datatype DeleteResult =
    | NotConfirmed
    | Deleted(data: Val)
    | Failed(error: Val)

  /** `error?.response?.data?.message ?? error?.message ?? errorText`. */
  function FailureMessage(error: Val, errorText: string): (r: Val)
    ensures !Nullish(r)
    ensures !Nullish(Get(Get(Get(error, "response"), "data"), "message")) ==>
              r == Get(Get(Get(error, "response"), "data"), "message")
    ensures Nullish(Get(Get(Get(error, "response"), "data"), "message")) && !Nullish(Get(error, "message")) ==>
              r == Get(error, "message")
    ensures Nullish(Get(Get(Get(error, "response"), "data"), "message")) && Nullish(Get(error, "message")) ==>
              r == Str(errorText)
  {
    Coalesce(Get(Get(Get(error, "response"), "data"), "message"), Coalesce(Get(error, "message"), Str(errorText)))
  }

  /** A thrown `Error` shows its own message, even an empty one; only message-less errors fall back. */
  lemma ThrownErrorShowsItsMessage(m: string, errorText: string)
    ensures FailureMessage(ErrorWithMessage(m), errorText) == Str(m)
    ensures FailureMessage(Str(m), errorText) == Str(errorText)
  {
  }

  /** An axios-style response message wins over the error's own message. */
  lemma ResponseMessageWins(response: string, own: string, errorText: string)
    ensures var err := Obj(map["response" := Obj(map["data" := Obj(map["message" := Str(response)])]),
                               "message" := Str(own)]);
      FailureMessage(err, errorText) == Str(response)
  {
  }

  /** The `onDelete` calls in a trace, each with the id it was given. */
  function DeleteCalls(trace: seq<Event>): seq<Val> {
    if trace == [] then []
    else (if trace[0].OnDelete? then [trace[0].id] else []) + DeleteCalls(trace[1..])
  }

  lemma {:induction false} DeleteCallsConcat(a: seq<Event>, b: seq<Event>)
    ensures DeleteCalls(a + b) == DeleteCalls(a) + DeleteCalls(b)
  {
    if a != [] {
      assert (a + b)[1..] == a[1..] + b;
      DeleteCallsConcat(a[1..], b);
    } else {
      assert a + b == b;
    }
  }

  /** The first dialog, built from the settings. */
  function AskDialog(opts: map<Setting, string>): Event {
    Dialog(SettingOf(opts, Title), SettingOf(opts, Text), Warning)
  }

  /**
   * `confirmDeleteById`: an unconfirmed dialog yields `NotConfirmed`, with the
   * "cancelled" dialog only when the cancel button closed it; a confirmed one calls
   * `onDelete(id)` once and yields its data, or the error it threw after showing the
   * error text.
   */
  method ConfirmDeleteById(id: Val, opts: map<Setting, string>, answer: Answer, deletion: Outcome<Val, Val>)
    returns (result: DeleteResult, trace: seq<Event>)
    ensures trace != [] && trace[0] == AskDialog(opts)
    ensures result.NotConfirmed? <==> answer.Dismissed?
    ensures DeleteCalls(trace) == (if answer.Confirmed? then [id] else [])
    ensures answer == Dismissed(Cancel) ==>
              trace == [AskDialog(opts), Dialog(SettingOf(opts, CancelledTitle), SettingOf(opts, CancelledText), ErrorIcon)]
    ensures answer.Dismissed? && answer.reason != Cancel ==> trace == [AskDialog(opts)]
    ensures answer.Confirmed? && deletion.Resolved? ==>
              result == Deleted(deletion.value) &&
              trace == [AskDialog(opts), Dialog(SettingOf(opts, LoadingTitle), SettingOf(opts, LoadingText), Info),
                        OnDelete(id), CloseDialog,
                        Dialog(SettingOf(opts, SuccessTitle), SettingOf(opts, SuccessText), SuccessIcon)]
    ensures answer.Confirmed? && deletion.Rejected? ==>
              result == Failed(deletion.error) &&
              trace == [AskDialog(opts), Dialog(SettingOf(opts, LoadingTitle), SettingOf(opts, LoadingText), Info),
                        OnDelete(id), CloseDialog,
                        Dialog(SettingOf(opts, ErrorTitle),
                               ToStr(FailureMessage(deletion.error, SettingOf(opts, ErrorText))), ErrorIcon)]
  {
    trace := [AskDialog(opts)];
    if answer.Dismissed? {
      if answer.reason == Cancel {
        var cancelled := Dialog(SettingOf(opts, CancelledTitle), SettingOf(opts, CancelledText), ErrorIcon);
        assert DeleteCalls([cancelled]) == [];
        DeleteCallsConcat(trace, [cancelled]);
        trace := trace + [cancelled];
      }
      return NotConfirmed, trace;
    }
    var rest;
    result, rest := RunDelete(id, opts, deletion);
    DeleteCallsConcat(trace, rest);
    trace := trace + rest;
  }

  /** The part of `confirmDeleteById` after the confirmation: loading, the call, the outcome dialog. */
  method RunDelete(id: Val, opts: map<Setting, string>, deletion: Outcome<Val, Val>)
    returns (result: DeleteResult, trace: seq<Event>)
    ensures DeleteCalls(trace) == [id]
    ensures deletion.Resolved? ==>
              result == Deleted(deletion.value) &&
              trace == [Dialog(SettingOf(opts, LoadingTitle), SettingOf(opts, LoadingText), Info),
                        OnDelete(id), CloseDialog,
                        Dialog(SettingOf(opts, SuccessTitle), SettingOf(opts, SuccessText), SuccessIcon)]
    ensures deletion.Rejected? ==>
              result == Failed(deletion.error) &&
              trace == [Dialog(SettingOf(opts, LoadingTitle), SettingOf(opts, LoadingText), Info),
                        OnDelete(id), CloseDialog,
                        Dialog(SettingOf(opts, ErrorTitle),
                               ToStr(FailureMessage(deletion.error, SettingOf(opts, ErrorText))), ErrorIcon)]
  {
    trace := [Dialog(SettingOf(opts, LoadingTitle), SettingOf(opts, LoadingText), Info), OnDelete(id), CloseDialog];
    assert DeleteCalls(trace[2..]) == [] && DeleteCalls(trace[1..]) == [id];
    var last: Event;
    match deletion {
      case Resolved(data) =>
        last := Dialog(SettingOf(opts, SuccessTitle), SettingOf(opts, SuccessText), SuccessIcon);
        result := Deleted(data);
      case Rejected(error) =>
        var message := FailureMessage(error, SettingOf(opts, ErrorText));
        last := Dialog(SettingOf(opts, ErrorTitle), ToStr(message), ErrorIcon);
        result := Failed(error);
    }
    DeleteCallsConcat(trace, [last]);
    trace := trace + [last];
  }
}
