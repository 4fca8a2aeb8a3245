/**
 * The administrator's "Change password" modal for another user: validation of the
 * new password, the guarded request and the open / submitting / message state.
 * The request's settlement is an input; the request itself is recorded as an event.
 */
module AdminPassword {
  import opened Wrappers
  import opened JsStrings
  import opened JsValues
  import UserView

  const DefaultMinLength: int := 8

  const MissingUuid: string := "User UUID is missing."
  const EmptyPassword: string := "Please enter a new password."
  const Updated: string := "Password updated successfully."

  function TooShort(minLength: int): string {
    "Password must be at least " + IntToString(minLength) + " characters."
  }

  /** `!!userUuid`. */
  predicate HasUuid(userUuid: Option<string>) {
    userUuid.Some? && userUuid.value != ""
  }

  /**
   * `validate`: a missing uuid, then a blank password, then a trimmed password shorter
   * than `minLength`; no error exactly when all three checks pass.
   */
  function Validate(userUuid: Option<string>, newPassword: string, minLength: int): (r: Option<string>)
    ensures r.None? <==> HasUuid(userUuid) && !AllWs(newPassword) && |Trim(newPassword)| >= minLength
    ensures !HasUuid(userUuid) ==> r == Some(MissingUuid)
    ensures HasUuid(userUuid) && AllWs(newPassword) ==> r == Some(EmptyPassword)
    ensures HasUuid(userUuid) && !AllWs(newPassword) && |Trim(newPassword)| < minLength ==>
              r == Some(TooShort(minLength))
  {
    TrimEmptyIffAllWs(newPassword);
    var pwd := Trim(newPassword);
    if !HasUuid(userUuid) then Some(MissingUuid)
    else if pwd == "" then Some(EmptyPassword)
    else if |pwd| < minLength then Some(TooShort(minLength))
    else None
  }

  /** With the default minimum, a password of seven non-blank characters is refused as too short. */
  lemma SevenCharactersTooShort(uuid: string, pwd: string)
    requires uuid != "" && |pwd| == 7 && IsTrimmed(pwd) && pwd != ""
    ensures Validate(Some(uuid), pwd, DefaultMinLength) == Some("Password must be at least 8 characters.")
  {
    TrimStartOfTrimmed(pwd);
    TrimEndOfTrimmed(pwd);
    assert Trim(pwd) == pwd;
    assert !AllWs(pwd) by { assert !IsWs(pwd[0]); }
    assert DigitChar(8) == '8';
    assert IntToString(8) == "8";
    assert TooShort(8) == "Password must be at least 8 characters.";
  }

  /** The Confirm button's `disabled` condition. */
  predicate ConfirmDisabled(submitting: bool, userUuid: Option<string>, newPassword: string) {
    submitting || !HasUuid(userUuid) || Trim(newPassword) == ""
  }

  /**
   * The button already refuses what the first two validation messages report;
   * only the length check can fire with the button enabled.
   */
  lemma DisabledCoversFirstChecks(submitting: bool, userUuid: Option<string>, newPassword: string, minLength: int)
    ensures Validate(userUuid, newPassword, minLength) in {Some(MissingUuid), Some(EmptyPassword)} ==>
              ConfirmDisabled(submitting, userUuid, newPassword)
    ensures !ConfirmDisabled(submitting, userUuid, newPassword) ==>
              Validate(userUuid, newPassword, minLength).None? ||
              Validate(userUuid, newPassword, minLength) == Some(TooShort(minLength))
  {
    TrimEmptyIffAllWs(newPassword);
    if Validate(userUuid, newPassword, minLength) == Some(EmptyPassword) && HasUuid(userUuid) {
      assert TooShort(minLength)[0] == 'P' && TooShort(minLength)[1] == 'a';
      assert EmptyPassword[1] == 'l';
    }
  }

  /** The calls the modal makes to its callbacks. */
  datatype Event = ChangePassword(uuid: string, newPassword: string) | OnSuccess

  datatype Modal = Modal(
    open: bool,
    newPassword: string,
    showPassword: bool,
    submitting: bool,
    modalError: Option<string>,
    success: Option<string>)

  /** `resetModalState` applied to an open or closed modal. */
  function Reset(open: bool): Modal {
    Modal(open, "", false, false, None, None)
  }

  /** The modal after a handler has run, with the callback calls it made. */
  datatype Step = Step(modal: Modal, calls: seq<Event>)

  /**
   * `handleConfirm`: both messages are cleared; a validation failure is shown and
   * nothing is sent; otherwise the uuid and the trimmed password are sent and the
   * settlement decides the message. After a success `onSuccess` runs when given, and
   * the modal stays submitting until the close timer fires; an `onSuccess` that throws
   * lands in the same `catch` as a failed request, so its error is shown beside the
   * success text and the modal is released without arming the timer.
   */
  function Confirm(m: Modal, userUuid: Option<string>, minLength: int, onSuccess: Callback,
                   settled: Outcome<Val, Val>): Step
  {
    var cleared := m.(modalError := None, success := None);
    var v := Validate(userUuid, m.newPassword, minLength);
    if v.Some? then Step(cleared.(modalError := v), [])
    else
      var call := ChangePassword(userUuid.value, Trim(m.newPassword));
      match settled
      case Rejected(err) =>
        Step(cleared.(submitting := false, modalError := Some(UserView.GetRtkErrorMessage(err))), [call])
      case Resolved(_) =>
        match onSuccess
        case Absent => Step(cleared.(submitting := true, success := Some(Updated)), [call])
        case Returns => Step(cleared.(submitting := true, success := Some(Updated)), [call, OnSuccess])
        case Throws(err) =>
          Step(cleared.(submitting := false, success := Some(Updated),
                        modalError := Some(UserView.GetRtkErrorMessage(err))), [call, OnSuccess])
  }

  /** A validation failure is shown, nothing is sent and nothing else changes. */
  lemma GuardedConfirmSendsNothing(m: Modal, userUuid: Option<string>, minLength: int, onSuccess: Callback,
                                   settled: Outcome<Val, Val>)
    requires Validate(userUuid, m.newPassword, minLength).Some?
    ensures var r := Confirm(m, userUuid, minLength, onSuccess, settled);
      r.calls == [] && r.modal.submitting == m.submitting && r.modal.open == m.open &&
      r.modal.modalError == Validate(userUuid, m.newPassword, minLength) && r.modal.success.None?
  {
  }

  /** A request is sent exactly when validation passes, and it carries the uuid and the trimmed password. */
  lemma ConfirmSendsTrimmedPassword(m: Modal, userUuid: Option<string>, minLength: int, onSuccess: Callback,
                                    settled: Outcome<Val, Val>)
    ensures var r := Confirm(m, userUuid, minLength, onSuccess, settled);
      (r.calls != [] <==> Validate(userUuid, m.newPassword, minLength).None?) &&
      (r.calls != [] ==> r.calls[0] == ChangePassword(userUuid.value, Trim(m.newPassword)) &&
                         Trim(m.newPassword) != "" && |Trim(m.newPassword)| >= minLength)
  {
    TrimEmptyIffAllWs(m.newPassword);
  }

  /**
   * A failed request releases the modal and shows the error. A successful one shows
   * the success text and calls `onSuccess` exactly when it is given; the modal stays
   * submitting (waiting for the close timer) unless `onSuccess` throws, in which case
   * that error is shown too and the modal is released.
   */
  lemma ConfirmSettlement(m: Modal, userUuid: Option<string>, minLength: int, onSuccess: Callback,
                          settled: Outcome<Val, Val>)
    requires Validate(userUuid, m.newPassword, minLength).None?
    ensures var r := Confirm(m, userUuid, minLength, onSuccess, settled);
      r.modal.open == m.open &&
      (settled.Rejected? ==> !r.modal.submitting && r.modal.success.None? && OnSuccess !in r.calls &&
                             r.modal.modalError == Some(UserView.GetRtkErrorMessage(settled.error))) &&
      (settled.Resolved? ==> r.modal.success == Some(Updated) && (OnSuccess in r.calls <==> !onSuccess.Absent?)) &&
      (settled.Resolved? && !onSuccess.Throws? ==> r.modal.submitting && r.modal.modalError.None?) &&
      (settled.Resolved? && onSuccess.Throws? ==>
         !r.modal.submitting && r.modal.modalError == Some(UserView.GetRtkErrorMessage(onSuccess.error)))
  {
    var r := Confirm(m, userUuid, minLength, onSuccess, settled);
    var call := ChangePassword(userUuid.value, Trim(m.newPassword));
    if settled.Rejected? {
      assert r.calls == [call];
    } else if onSuccess.Absent? {
      assert r.calls == [call];
    }
  }

  class AdminPasswordModal {
    const userUuid: Option<string>
    const disabled: bool
    const minLength: int

    var open: bool
    var newPassword: string
    var showPassword: bool
    var submitting: bool
    var modalError: Option<string>
    var success: Option<string>

    function Value(): Modal
      reads this
    {
      Modal(open, newPassword, showPassword, submitting, modalError, success)
    }

    /** `canOpen`. */
    predicate CanOpen()
      reads this
    {
      HasUuid(userUuid) && !disabled
    }

    constructor (userUuid: Option<string>, disabled: bool, minLength: int)
      ensures this.userUuid == userUuid && this.disabled == disabled && this.minLength == minLength
      ensures Value() == Reset(false)
    {
      this.userUuid := userUuid;
      this.disabled := disabled;
      this.minLength := minLength;
      open, newPassword, showPassword, submitting, modalError, success := false, "", false, false, None, None;
    }

    /** `handleOpen`: nothing unless the modal may open; then a fresh, open modal. */
    method HandleOpen()
      modifies this
      ensures CanOpen() ==> Value() == Reset(true)
      ensures !CanOpen() ==> Value() == old(Value())
    {
      if !CanOpen() {
        return;
      }
      newPassword, showPassword, modalError, success, submitting := "", false, None, None, false;
      open := true;
    }

    /** `handleClose`: refused while a request is in flight. */
    method HandleClose()
      modifies this
      ensures old(submitting) ==> Value() == old(Value())
      ensures !old(submitting) ==> Value() == old(Value()).(open := false)
    {
      if submitting {
        return;
      }
      open := false;
    }

    /** The password input's `onChange`: both messages go away. */
    method PasswordChanged(v: string)
      modifies this
      ensures Value() == old(Value()).(newPassword := v, modalError := None, success := None)
    {
      modalError := None;
      success := None;
      newPassword := v;
    }

    /** The eye button. */
    method ToggleShowPassword()
      modifies this
      ensures Value() == old(Value()).(showPassword := !old(showPassword))
    {
      showPassword := !showPassword;
    }

    /** `handleConfirm`, as specified by `Confirm`; `onSuccess` is the prop as this call finds it. */
    method HandleConfirm(onSuccess: Callback, settled: Outcome<Val, Val>) returns (calls: seq<Event>)
      modifies this
      ensures Step(Value(), calls) == Confirm(old(Value()), userUuid, minLength, onSuccess, settled)
    {
      modalError := None;
      success := None;
      var validationError := Validate(userUuid, newPassword, minLength);
      if validationError.Some? {
        modalError := validationError;
        return [];
      }
      calls := Submit(onSuccess, settled);
    }

    /**
     * The part of `handleConfirm` after validation passed: the request, then on success
     * the message and `onSuccess`; a failed request or a throwing `onSuccess` is caught.
     */
    method Submit(onSuccess: Callback, settled: Outcome<Val, Val>) returns (calls: seq<Event>)
      requires HasUuid(userUuid)
      modifies this
      ensures settled.Resolved? && !onSuccess.Throws? ==>
        Value() == old(Value()).(submitting := true, success := Some(Updated))
      ensures settled.Resolved? && onSuccess.Throws? ==>
        Value() == old(Value()).(submitting := false, success := Some(Updated),
                                 modalError := Some(UserView.GetRtkErrorMessage(onSuccess.error)))
      ensures settled.Rejected? ==>
        Value() == old(Value()).(submitting := false, modalError := Some(UserView.GetRtkErrorMessage(settled.error)))
      ensures calls == [ChangePassword(userUuid.value, Trim(old(newPassword)))] +
                       (if settled.Resolved? && !onSuccess.Absent? then [OnSuccess] else [])
    {
      submitting := true;
      calls := [ChangePassword(userUuid.value, Trim(newPassword))];
      if settled.Rejected? {
        modalError := Some(UserView.GetRtkErrorMessage(settled.error));
        submitting := false;
        return;
      }
      success := Some(Updated);
      if !onSuccess.Absent? {
        calls := calls + [OnSuccess];
      }
      if onSuccess.Throws? {
        modalError := Some(UserView.GetRtkErrorMessage(onSuccess.error));
        submitting := false;
      }
    }

    /** The 900 ms auto-close timer armed by a successful request. */
    method CloseTimerFired()
      modifies this
      ensures Value() == old(Value()).(open := false, submitting := false)
    {
      open := false;
      submitting := false;
    }
  }
}
