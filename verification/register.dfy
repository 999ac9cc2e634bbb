/**
 * The registration form: field setters that each replace one field, and
 * the register click, whose checks run in a fixed order before the
 * account service is asked to create the account.
 */
module Register {
  import opened Wrappers

  datatype RegisterUiState = RegisterUiState(email: string, password: string, confirmPassword: string, username: string)

  const EMPTY_FORM := RegisterUiState("", "", "", "")

  const PASSWORDS_DO_NOT_MATCH := "Passwords do not match."
  const USERNAME_EMPTY := "Username cannot be empty."
  const ENTER_YOUR_DATA := "Please Enter Your data."
  const EMAIL_IN_USE := "The email address is already in use."

  /** `Graph.Home`, the route registration leads to. */
  const HOME_GRAPH := "home_graph"

  /** Whitespace as `isBlank` sees it, restricted to the common characters. */
  predicate IsWhitespace(c: char) {
    c == ' ' || c == '\t' || c == '\n' || c == '\r' || c == '\U{B}' || c == '\U{C}'
  }

  /** `isBlank()`: empty or whitespace only. */
  predicate IsBlank(s: string) {
    forall i :: 0 <= i < |s| ==> IsWhitespace(s[i])
  }

  /** One `createAccount` call, with the form's fields. */
  datatype AccountRequest = AccountRequest(email: string, password: string, confirmPassword: string, username: string)

  /**
   * What a register click leads to: the toasts in order, the account
   * request if one is made, whether the account is then linked, and the
   * route navigated to.
   */
  datatype RegisterOutcome = RegisterOutcome(
    toasts: seq<string>,
    request: Option<AccountRequest>,
    linked: bool,
    navigatedTo: Option<string>)

  /**
   * `onRegisterClick` with `createAccount` answering `createAccountError`:
   * a mismatch stops first, then a blank username; an empty password only
   * warns; navigation happens only on success.
   */
  function RegisterClick(ui: RegisterUiState, createAccountError: Option<string>): (o: RegisterOutcome)
    ensures ui.password != ui.confirmPassword ==> o == RegisterOutcome([PASSWORDS_DO_NOT_MATCH], None, false, None)
    ensures ui.password == ui.confirmPassword && IsBlank(ui.username) ==>
      o == RegisterOutcome([USERNAME_EMPTY], None, false, None)
    ensures o.request.Some? <==> ui.password == ui.confirmPassword && !IsBlank(ui.username)
    ensures o.request.Some? ==>
      o.request.value == AccountRequest(ui.email, ui.password, ui.confirmPassword, ui.username)
    ensures o.request.Some? && ui.password == "" ==> |o.toasts| > 0 && o.toasts[0] == ENTER_YOUR_DATA
    ensures o.navigatedTo.Some? <==> o.request.Some? && createAccountError.None?
    ensures o.linked <==> o.navigatedTo.Some?
    ensures o.navigatedTo.Some? ==> o.navigatedTo.value == HOME_GRAPH && EMAIL_IN_USE !in o.toasts
    ensures o.request.Some? && createAccountError.Some? ==> |o.toasts| > 0 && o.toasts[|o.toasts| - 1] == EMAIL_IN_USE
  {
    if ui.password != ui.confirmPassword then RegisterOutcome([PASSWORDS_DO_NOT_MATCH], None, false, None)
    else if IsBlank(ui.username) then RegisterOutcome([USERNAME_EMPTY], None, false, None)
    else
      var warning := if ui.password == "" || ui.confirmPassword == "" then [ENTER_YOUR_DATA] else [];
      var request := AccountRequest(ui.email, ui.password, ui.confirmPassword, ui.username);
      if createAccountError.None? then RegisterOutcome(warning, Some(request), true, Some(HOME_GRAPH))
      else RegisterOutcome(warning + [EMAIL_IN_USE], Some(request), false, None)
  }

  /** A mismatch is reported even when the username is blank too: the checks run in that order. */
  lemma MismatchCheckedBeforeUsername(ui: RegisterUiState, createAccountError: Option<string>)
    requires ui.password != ui.confirmPassword && IsBlank(ui.username)
    ensures RegisterClick(ui, createAccountError).toasts == [PASSWORDS_DO_NOT_MATCH]
  {
  }

  /** An empty password with a matching empty confirmation still reaches the account service. */
  lemma EmptyPasswordStillRequestsAccount(email: string, username: string, createAccountError: Option<string>)
    requires !IsBlank(username)
    ensures var o := RegisterClick(RegisterUiState(email, "", "", username), createAccountError);
      o.request == Some(AccountRequest(email, "", "", username)) && o.toasts[0] == ENTER_YOUR_DATA
  {
  }

  /** The registration view model: the form, and what its clicks have done so far. */
  class RegistrationViewModel {
    var uiState: RegisterUiState
    var toasts: seq<string>
    var accountRequests: seq<AccountRequest>
    var linkRequests: seq<(string, string)>
    var navigations: seq<string>

    constructor ()
      ensures uiState == EMPTY_FORM
      ensures toasts == [] && accountRequests == [] && linkRequests == [] && navigations == []
    {
      uiState := EMPTY_FORM;
      toasts := [];
      accountRequests := [];
      linkRequests := [];
      navigations := [];
    }

    method OnEmailChange(newValue: string)
      modifies this
      ensures uiState == old(uiState).(email := newValue)
      ensures toasts == old(toasts) && accountRequests == old(accountRequests)
      ensures linkRequests == old(linkRequests) && navigations == old(navigations)
    {
      uiState := uiState.(email := newValue);
    }

    method OnPasswordChange(newValue: string)
      modifies this
      ensures uiState == old(uiState).(password := newValue)
      ensures toasts == old(toasts) && accountRequests == old(accountRequests)
      ensures linkRequests == old(linkRequests) && navigations == old(navigations)
    {
      uiState := uiState.(password := newValue);
    }

    method OnConfirmPassword(newValue: string)
      modifies this
      ensures uiState == old(uiState).(confirmPassword := newValue)
      ensures toasts == old(toasts) && accountRequests == old(accountRequests)
      ensures linkRequests == old(linkRequests) && navigations == old(navigations)
    {
      uiState := uiState.(confirmPassword := newValue);
    }

    method OnUsernameChanged(newValue: string)
      modifies this
      ensures uiState == old(uiState).(username := newValue)
      ensures toasts == old(toasts) && accountRequests == old(accountRequests)
      ensures linkRequests == old(linkRequests) && navigations == old(navigations)
    {
      uiState := uiState.(username := newValue);
    }

    /**
     * `onRegisterClick`: the account service's answer is the parameter;
     * the form is not changed, and everything the click does is appended
     * to the records.
     */
    method OnRegisterClick(createAccountError: Option<string>)
      modifies this
      ensures var o := RegisterClick(old(uiState), createAccountError);
        && uiState == old(uiState)
        && toasts == old(toasts) + o.toasts
        && accountRequests == old(accountRequests) + (if o.request.Some? then [o.request.value] else [])
        && linkRequests == old(linkRequests) + (if o.linked then [(uiState.email, uiState.password)] else [])
        && navigations == old(navigations) + (if o.navigatedTo.Some? then [o.navigatedTo.value] else [])
    {
      if uiState.password != uiState.confirmPassword {
        toasts := toasts + [PASSWORDS_DO_NOT_MATCH];
        return;
      }
      if IsBlank(uiState.username) {
        toasts := toasts + [USERNAME_EMPTY];
        return;
      }
      if uiState.password == "" || uiState.confirmPassword == "" {
        toasts := toasts + [ENTER_YOUR_DATA];
      }
      accountRequests := accountRequests + [AccountRequest(uiState.email, uiState.password,
                                                           uiState.confirmPassword, uiState.username)];
      if createAccountError.None? {
        linkRequests := linkRequests + [(uiState.email, uiState.password)];
        navigations := navigations + [HOME_GRAPH];
      } else {
        toasts := toasts + [EMAIL_IN_USE];
      }
    }
  }
}
