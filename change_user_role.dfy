/**
 * The "Change status" modal: choosing `active` or `disabled` for a user, the guards
 * that refuse a request, the Confirm button's disabled condition and the modal state.
 */
module ChangeUserRole {
  import opened Wrappers
  import opened JsStrings
  import opened JsValues
  import UserView

  /** The two statuses the picker offers. */
  datatype Status = Active | Disabled

  function StatusValue(s: Status): string {
    match s
    case Active => "active"
    case Disabled => "disabled"
  }

  /** `r.charAt(0).toUpperCase() + r.slice(1)`. */
  function Capitalize(s: string): (r: string)
    ensures |r| == |s|
    ensures s != "" ==> r[0] == UpperChar(s[0]) && r[1..] == s[1..]
  {
    if s == "" then "" else Upper(s[..1]) + s[1..]
  }

  datatype PickerItem = PickerItem(caption: string, value: Status)

  /** The picker item for one status: its value, labelled with the value capitalised. */
  function Item(s: Status): PickerItem {
    PickerItem(Capitalize(StatusValue(s)), s)
  }

  /** `rolesData`: the statuses `active` and `disabled`, each labelled by capitalising its value. */
  function RolesData(): (r: seq<PickerItem>)
    ensures r == [PickerItem("Active", Active), PickerItem("Disabled", Disabled)]
  {
    assert UpperChar('a') == 'A' && UpperChar('d') == 'D';
    assert Capitalize("active") == "Active";
    assert Capitalize("disabled") == "Disabled";
    [Item(Active), Item(Disabled)]
  }

  const MissingUuid: string := "User UUID is missing."
  const NoSelection: string := "Please select a status."
  const SameStatus: string := "Selected status is the same as the current status."
  const Updated: string := "Status updated successfully."

  predicate HasUuid(userUuid: Option<string>) {
    userUuid.Some? && userUuid.value != ""
  }

  /**
   * `getErrorMessage`: the same four shapes as the RTK Query message, but an error
   * without any of them is shown as its JSON text. `stringified` is what
   * `JSON.stringify` produced, None when it threw.
   */
  function GetErrorMessage(err: Val, stringified: Option<string>): (r: string)
    ensures !Truthy(err) ==> r == UserView.GenericError
    ensures Truthy(err) && UserView.RtkMessage(err).Some? ==> r == UserView.RtkMessage(err).value
    ensures Truthy(err) && UserView.RtkMessage(err).None? ==> r == stringified.GetOr(UserView.GenericError)
  {
    if !Truthy(err) then UserView.GenericError
    else match UserView.RtkMessage(err)
      case Some(m) => m
      case None => stringified.GetOr(UserView.GenericError)
  }

  /** The two error texts differ only for an error that carries no message at all. */
  lemma ErrorMessageAgreesWithRtk(err: Val, stringified: Option<string>)
    ensures UserView.RtkMessage(err).Some? || !Truthy(err) ==>
              GetErrorMessage(err, stringified) == UserView.GetRtkErrorMessage(err)
    ensures stringified.None? ==> GetErrorMessage(err, stringified) == UserView.GetRtkErrorMessage(err)
  {
  }

  /**
   * The guards of `handleConfirm`, in order: no uuid, no selection, the selection is
   * the current status.
   */
  function Guard(userUuid: Option<string>, selected: Option<Status>, current: Option<Status>): (r: Option<string>)
    ensures r.None? <==> HasUuid(userUuid) && selected.Some? && selected != current
    ensures !HasUuid(userUuid) ==> r == Some(MissingUuid)
    ensures HasUuid(userUuid) && selected.None? ==> r == Some(NoSelection)
    ensures HasUuid(userUuid) && selected.Some? && selected == current ==> r == Some(SameStatus)
  {
    if !HasUuid(userUuid) then Some(MissingUuid)
    else if selected.None? then Some(NoSelection)
    else if current.Some? && selected == current then Some(SameStatus)
    else None
  }

  /** `confirmDisabled`. */
  predicate ConfirmDisabled(submitting: bool, userUuid: Option<string>, selected: Option<Status>, current: Option<Status>) {
    submitting || !HasUuid(userUuid) || selected.None? ||
    (if current.Some? then selected == current else false)
  }

  /**
   * The button and the guards agree: whenever a guard would fire the button is
   * already disabled, and an idle button is disabled only when a guard would fire.
   */
  lemma ButtonMatchesGuards(submitting: bool, userUuid: Option<string>, selected: Option<Status>, current: Option<Status>)
    ensures Guard(userUuid, selected, current).Some? ==> ConfirmDisabled(submitting, userUuid, selected, current)
    ensures !submitting ==>
              (ConfirmDisabled(submitting, userUuid, selected, current) <==> Guard(userUuid, selected, current).Some?)
  {
  }

  /** The calls the modal makes to its callbacks. */
  datatype Event = UpdateRole(uuid: string, role: Status) | OnSuccess(role: Status)

  datatype Modal = Modal(
    open: bool,
    selectedRole: Option<Status>,
    submitting: bool,
    modalError: Option<string>,
    success: Option<string>)

  /** `resetModalState`: messages and submitting cleared, the selection back to the current status. */
  function Reset(m: Modal, current: Option<Status>): (r: Modal)
    ensures r.open == m.open && r.selectedRole == current && !r.submitting
    ensures r.modalError.None? && r.success.None?
  {
    m.(modalError := None, success := None, submitting := false, selectedRole := current)
  }

  class StatusModal {
    const userUuid: Option<string>
    const disabled: bool
    /** The `currentRole` prop; the parent may change it. */
    var currentRole: Option<Status>

    var open: bool
    var selectedRole: Option<Status>
    var submitting: bool
    var modalError: Option<string>
    var success: Option<string>

    function Value(): Modal
      reads this
    {
      Modal(open, selectedRole, submitting, modalError, success)
    }

    predicate CanOpen()
      reads this
    {
      HasUuid(userUuid) && !disabled
    }

    constructor (userUuid: Option<string>, currentRole: Option<Status>, disabled: bool)
      ensures this.userUuid == userUuid && this.currentRole == currentRole
      ensures this.disabled == disabled
      ensures Value() == Modal(false, currentRole, false, None, None)
    {
      this.userUuid := userUuid;
      this.currentRole := currentRole;
      this.disabled := disabled;
      open, selectedRole, submitting, modalError, success := false, currentRole, false, None, None;
    }

    method ResetModalState()
      modifies this
      ensures currentRole == old(currentRole)
      ensures Value() == Reset(old(Value()), currentRole)
    {
      modalError := None;
      success := None;
      submitting := false;
      selectedRole := currentRole;
    }

    /** `handleOpen`: nothing unless the modal may open; then reset and open. */
    method HandleOpen()
      modifies this
      ensures currentRole == old(currentRole)
      ensures CanOpen() ==> Value() == Reset(old(Value()), currentRole).(open := true)
      ensures !CanOpen() ==> Value() == old(Value())
    {
      if !CanOpen() {
        return;
      }
      ResetModalState();
      open := true;
    }

    /** `handleClose`: refused while a request is in flight. */
    method HandleClose()
      modifies this
      ensures currentRole == old(currentRole)
      ensures old(submitting) ==> Value() == old(Value())
      ensures !old(submitting) ==> Value() == old(Value()).(open := false)
    {
      if submitting {
        return;
      }
      open := false;
    }

    /** The picker's `onChange`: both messages go away and the choice is taken. */
    method Select(v: Option<Status>)
      modifies this
      ensures currentRole == old(currentRole)
      ensures Value() == old(Value()).(selectedRole := v, modalError := None, success := None)
    {
      modalError := None;
      success := None;
      selectedRole := v;
    }

    /** The effect that runs when `currentRole` changes: a closed modal follows it. */
    method CurrentRoleChanged(r: Option<Status>)
      requires r != currentRole
      modifies this
      ensures currentRole == r
      ensures old(open) ==> Value() == old(Value())
      ensures !old(open) ==> Value() == old(Value()).(selectedRole := r)
    {
      currentRole := r;
      if !open {
        selectedRole := r;
      }
    }

    /**
     * `handleConfirm`: both messages are cleared; a firing guard is shown and nothing
     * is sent; otherwise the uuid and the selection are sent and the settlement
     * decides the message. `onSuccess` is the prop as this call finds it, and
     * `stringified` is `JSON.stringify` of whatever error ends in the `catch`.
     */
    method HandleConfirm(onSuccess: Callback, settled: Outcome<Val, Val>, stringified: Option<string>)
      returns (calls: seq<Event>)
      modifies this
      ensures currentRole == old(currentRole)
      ensures Guard(userUuid, old(selectedRole), currentRole).Some? ==>
        calls == [] &&
        Value() == old(Value()).(modalError := Guard(userUuid, old(selectedRole), currentRole), success := None)
      ensures Guard(userUuid, old(selectedRole), currentRole).None? ==>
        calls == [UpdateRole(userUuid.value, old(selectedRole).value)] +
                 (if settled.Resolved? && !onSuccess.Absent? then [OnSuccess(old(selectedRole).value)] else [])
      ensures Guard(userUuid, old(selectedRole), currentRole).None? && settled.Resolved? && !onSuccess.Throws? ==>
        Value() == old(Value()).(submitting := true, modalError := None, success := Some(Updated))
      ensures Guard(userUuid, old(selectedRole), currentRole).None? && settled.Resolved? && onSuccess.Throws? ==>
        Value() == old(Value()).(submitting := false, success := Some(Updated),
                                 modalError := Some(GetErrorMessage(onSuccess.error, stringified)))
      ensures Guard(userUuid, old(selectedRole), currentRole).None? && settled.Rejected? ==>
        Value() == old(Value()).(submitting := false, success := None,
                                 modalError := Some(GetErrorMessage(settled.error, stringified)))
    {
      modalError := None;
      success := None;
      var guard := Guard(userUuid, selectedRole, currentRole);
      if guard.Some? {
        modalError := guard;
        return [];
      }
      calls := Submit(onSuccess, settled, stringified);
    }

    /**
     * The part of `handleConfirm` after the guards passed: the update, then on success
     * the message and `onSuccess` with the selection; a failed update or a throwing
     * `onSuccess` is caught, shown and releases the modal.
     */
    method Submit(onSuccess: Callback, settled: Outcome<Val, Val>, stringified: Option<string>)
      returns (calls: seq<Event>)
      requires HasUuid(userUuid) && selectedRole.Some?
      modifies this
      ensures currentRole == old(currentRole)
      ensures settled.Resolved? && !onSuccess.Throws? ==>
        Value() == old(Value()).(submitting := true, success := Some(Updated))
      ensures settled.Resolved? && onSuccess.Throws? ==>
        Value() == old(Value()).(submitting := false, success := Some(Updated),
                                 modalError := Some(GetErrorMessage(onSuccess.error, stringified)))
      ensures settled.Rejected? ==>
        Value() == old(Value()).(submitting := false, modalError := Some(GetErrorMessage(settled.error, stringified)))
      ensures calls == [UpdateRole(userUuid.value, old(selectedRole).value)] +
                       (if settled.Resolved? && !onSuccess.Absent? then [OnSuccess(old(selectedRole).value)] else [])
    {
      submitting := true;
      var role := selectedRole.value;
      calls := [UpdateRole(userUuid.value, role)];
      if settled.Rejected? {
        modalError := Some(GetErrorMessage(settled.error, stringified));
        submitting := false;
        return;
      }
      success := Some(Updated);
      if !onSuccess.Absent? {
        calls := calls + [OnSuccess(role)];
      }
      if onSuccess.Throws? {
        modalError := Some(GetErrorMessage(onSuccess.error, stringified));
        submitting := false;
      }
    }

    /** The 900 ms auto-close timer armed by a successful request. */
    method CloseTimerFired()
      modifies this
      ensures currentRole == old(currentRole)
      ensures Value() == old(Value()).(open := false, submitting := false)
    {
      open := false;
      submitting := false;
    }
  }
}
