/**
 * The signed-in user's own "Change Password" modal: the form, the "fill in both"
 * guard, the request and the message shown after it settles.
 */
module AccountPassword {
  import opened Wrappers
  import opened JsValues
  import UserView

  const FillBoth: string := "Please fill in both old and new password."
  const Updated: string := "Password updated successfully."
  const Fallback: string := "Failed to change password."

  /** `err?.toString()`: undefined for a nullish error, otherwise `String(err)`. */
  function ToStringCall(err: Val): (r: Val)
    ensures Nullish(err) ==> r == Undef
    ensures !Nullish(err) ==> r == Str(ToStr(err))
  {
    if Nullish(err) then Undef else Str(ToStr(err))
  }

  /** The failure text: `data.message`, else `error`, else `err.toString()`, else the fixed text. */
  function FailureMessage(err: Val): (r: Val)
    ensures Truthy(r)
    ensures Truthy(UserView.DataMessage(err)) ==> r == UserView.DataMessage(err)
    ensures !Truthy(UserView.DataMessage(err)) && Truthy(Get(err, "error")) ==> r == Get(err, "error")
    ensures !Truthy(UserView.DataMessage(err)) && !Truthy(Get(err, "error")) && Truthy(ToStringCall(err)) ==>
              r == ToStringCall(err)
    ensures !Truthy(UserView.DataMessage(err)) && !Truthy(Get(err, "error")) && !Truthy(ToStringCall(err)) ==>
              r == Str(Fallback)
  {
    Or(UserView.DataMessage(err), Or(Get(err, "error"), Or(ToStringCall(err), Str(Fallback))))
  }

  /**
   * Every object error renders to "[object Object]", so for an object without a
   * truthy `data.message` or `error` that is the text shown and the fixed fallback
   * is never reached.
   */
  lemma ObjectErrorShowsObjectText(err: Val)
    requires err.Obj? && !Truthy(UserView.DataMessage(err)) && !Truthy(Get(err, "error"))
    ensures FailureMessage(err) == Str("[object Object]")
    ensures FailureMessage(err) != Str(Fallback)
  {
  }

  /** The fixed fallback appears only for an error that renders to the empty text or is nullish. */
  lemma FallbackOnlyForEmptyErrors(err: Val)
    requires !Truthy(UserView.DataMessage(err)) && !Truthy(Get(err, "error"))
    ensures FailureMessage(err) == Str(Fallback) <==> Nullish(err) || ToStr(err) == "" || ToStr(err) == Fallback
  {
  }

  datatype Form = Form(oldPassword: string, newPassword: string)

  /** The mutation call the modal makes. */
  datatype Event = ChangePassword(form: Form)

  datatype Modal = Modal(
    open: bool,
    form: Form,
    localError: Option<Val>,
    localSuccess: Option<string>,
    showOld: bool,
    showNew: bool)

  /** The modal after `submit`, with the mutation calls it made. */
  datatype Step = Step(modal: Modal, calls: seq<Event>)

  /**
   * `submit`: both messages are cleared; an empty old or new password is refused
   * without a call; otherwise the form is sent as typed and the settlement decides
   * the message.
   */
  function Submit(m: Modal, settled: Outcome<Val, Val>): Step {
    var cleared := m.(localError := None, localSuccess := None);
    if m.form.oldPassword == "" || m.form.newPassword == "" then
      Step(cleared.(localError := Some(Str(FillBoth))), [])
    else
      match settled
      case Resolved(_) => Step(cleared.(localSuccess := Some(Updated)), [ChangePassword(m.form)])
      case Rejected(err) => Step(cleared.(localError := Some(FailureMessage(err))), [ChangePassword(m.form)])
  }

  /** A call is made exactly when both fields are filled in, and it carries the form untrimmed. */
  lemma SubmitCallsOnlyWhenFilled(m: Modal, settled: Outcome<Val, Val>)
    ensures var r := Submit(m, settled);
      (r.calls != [] <==> m.form.oldPassword != "" && m.form.newPassword != "") &&
      (r.calls != [] ==> r.calls == [ChangePassword(m.form)]) &&
      r.modal.form == m.form && r.modal.open == m.open
  {
  }

  /** After a submit exactly one of the two messages is shown. */
  lemma SubmitShowsOneMessage(m: Modal, settled: Outcome<Val, Val>)
    ensures var r := Submit(m, settled);
      r.modal.localError.Some? != r.modal.localSuccess.Some? &&
      (r.modal.localError.Some? ==> Truthy(r.modal.localError.value))
  {
  }

  class AccountPasswordModal {
    var open: bool
    var oldPassword: string
    var newPassword: string
    var localError: Option<Val>
    var localSuccess: Option<string>
    var showOld: bool
    var showNew: bool

    function Value(): Modal
      reads this
    {
      Modal(open, Form(oldPassword, newPassword), localError, localSuccess, showOld, showNew)
    }

    constructor ()
      ensures Value() == Modal(false, Form("", ""), None, None, false, false)
    {
      open, oldPassword, newPassword := false, "", "";
      localError, localSuccess, showOld, showNew := None, None, false, false;
    }

    /** `resetState`. */
    method ResetState()
      modifies this
      ensures Value() == Modal(old(open), Form("", ""), None, None, false, false)
    {
      oldPassword, newPassword := "", "";
      localError := None;
      localSuccess := None;
      showOld := false;
      showNew := false;
    }

    /** `handleOpen`: a fresh form, open. */
    method HandleOpen()
      modifies this
      ensures Value() == Modal(true, Form("", ""), None, None, false, false)
    {
      ResetState();
      open := true;
    }

    /** `handleClose`: refused while the mutation is loading. */
    method HandleClose(isLoading: bool)
      modifies this
      ensures isLoading ==> Value() == old(Value())
      ensures !isLoading ==> Value() == old(Value()).(open := false)
    {
      if isLoading {
        return;
      }
      open := false;
    }

    /** The form's `onChange`: the new values, and any message goes away. */
    method FormChanged(v: Form)
      modifies this
      ensures Value() == old(Value()).(form := v, localError := None, localSuccess := None)
    {
      oldPassword, newPassword := v.oldPassword, v.newPassword;
      if localError.Some? {
        localError := None;
      }
      if localSuccess.Some? {
        localSuccess := None;
      }
    }

    /** `submit`, as specified by `Submit`. */
    method HandleSubmit(settled: Outcome<Val, Val>) returns (calls: seq<Event>)
      modifies this
      ensures Step(Value(), calls) == Submit(old(Value()), settled)
    {
      localError := None;
      localSuccess := None;
      if oldPassword == "" || newPassword == "" {
        localError := Some(Str(FillBoth));
        return [];
      }
      calls := [ChangePassword(Form(oldPassword, newPassword))];
      if settled.Resolved? {
        localSuccess := Some(Updated);
      } else {
        localError := Some(FailureMessage(settled.error));
      }
    }
  }
}
