/** The login screen: sign in with the identity provider, fetch the matching
    profile row, enforce the approval gate and report success upward, signing
    out again on every failure that follows a successful sign-in. The backend
    calls are not modelled; their outcomes are inputs. */
module Login {
  import opened Types
  import opened Events

  const AuthFailedMessage := "Email atau kata sandi salah."
  const FetchFailedMessage := "Gagal mengambil data pengguna. Silakan coba lagi."
  const PendingApprovalMessage := "Akun Anda sedang menunggu persetujuan admin."
  const ProfileMissingMessage := "Data pengguna tidak ditemukan."

  /** The answer to the password sign-in: an error, or data that may or may
      not carry an authenticated user (given by its id). */
  datatype AuthOutcome = AuthFailed | AuthOk(userId: Option<string>)

  /** The answer to the single-row profile query. */
  datatype ProfileOutcome = FetchFailed | Found(row: ProfileRow) | NotFound

  /** The approval gate blocks only a flag that is exactly `false`: a row
      flagged `true`, or carrying no boolean flag at all, passes. */
  function PendingApproval(row: ProfileRow): (pending: bool)
    ensures !pending <==> row.isApproved == Some(true) || row.isApproved == None
  {
    match row.isApproved
    case Some(approved) => !approved
    case None => false
  }

  /** The sign-in produced a user, so the profile is fetched. */
  predicate SignedIn(auth: AuthOutcome)
  {
    auth.AuthOk? && auth.userId.Some?
  }

  /** The user is let in: signed in and given an approved (or unflagged) profile. */
  predicate Admitted(auth: AuthOutcome, profile: ProfileOutcome)
  {
    SignedIn(auth) && profile.Found? && !PendingApproval(profile.row)
  }

  /** Everything one submit does, in order: clear the error, enter loading,
      sign in, then follow the outcomes, and leave loading on every path. */
  function SubmitTrace(email: string, password: string, auth: AuthOutcome, profile: ProfileOutcome): (t: seq<Event>)
    ensures 4 <= |t| <= 7
    ensures t[0] == SetError("") && t[1] == SetLoading(true) && t[2] == SignIn(email, password)
    ensures t[|t| - 1] == SetLoading(false)
  {
    match auth
    case AuthFailed =>
      [SetError(""), SetLoading(true), SignIn(email, password),
       SetError(AuthFailedMessage), SetLoading(false)]
    case AuthOk(None) =>
      [SetError(""), SetLoading(true), SignIn(email, password), SetLoading(false)]
    case AuthOk(Some(id)) =>
      match profile
      case FetchFailed =>
        [SetError(""), SetLoading(true), SignIn(email, password), FetchProfile(id),
         SetError(FetchFailedMessage), SignOut, SetLoading(false)]
      case Found(row) =>
        if PendingApproval(row) then
          [SetError(""), SetLoading(true), SignIn(email, password), FetchProfile(id),
           SetError(PendingApprovalMessage), SignOut, SetLoading(false)]
        else
          [SetError(""), SetLoading(true), SignIn(email, password), FetchProfile(id),
           LoginSuccess(row), SetLoading(false)]
      case NotFound =>
        [SetError(""), SetLoading(true), SignIn(email, password), FetchProfile(id),
         SetError(ProfileMissingMessage), SignOut, SetLoading(false)]
  }

  /** The message left on screen, case by case: the credentials message on
      a failed sign-in, the matching message for each failure after it, and
      the cleared message otherwise (admitted, or no user returned). */
  function ShownMessage(auth: AuthOutcome, profile: ProfileOutcome): (msg: string)
    ensures msg == "" <==> auth == AuthOk(None) || Admitted(auth, profile)
  {
    match auth
    case AuthFailed => AuthFailedMessage
    case AuthOk(None) => ""
    case AuthOk(Some(_)) =>
      match profile
      case FetchFailed => FetchFailedMessage
      case Found(row) => if PendingApproval(row) then PendingApprovalMessage else ""
      case NotFound => ProfileMissingMessage
  }

  /** What the handler does once the sign-in produced user `id`: fetch that
      user's profile, then report the failure and sign out, or call back. */
  function ProfileSteps(id: string, profile: ProfileOutcome): (t: seq<Event>)
    ensures 2 <= |t| <= 3 && t[0] == FetchProfile(id)
    ensures SignOut in t <==> !Admitted(AuthOk(Some(id)), profile)
  {
    match profile
    case FetchFailed => [FetchProfile(id), SetError(FetchFailedMessage), SignOut]
    case Found(row) =>
      if PendingApproval(row) then [FetchProfile(id), SetError(PendingApprovalMessage), SignOut]
      else [FetchProfile(id), LoginSuccess(row)]
    case NotFound => [FetchProfile(id), SetError(ProfileMissingMessage), SignOut]
  }

  /** A submit whose sign-in produced a user is the common opening, the
      profile steps and the final loading write. */
  lemma SignedInTrace(email: string, password: string, id: string, profile: ProfileOutcome)
    ensures SubmitTrace(email, password, AuthOk(Some(id)), profile)
      == [SetError(""), SetLoading(true), SignIn(email, password)] + ProfileSteps(id, profile) + [SetLoading(false)]
  {
  }

  /** What every submit does whatever the outcomes: the error is cleared and
      loading entered before the single sign-in call, and loading is left as
      the very last step, with no other loading write in between. */
  predicate Bracketed(t: seq<Event>, email: string, password: string)
  {
    && |t| >= 4
    && t[0] == SetError("") && t[1] == SetLoading(true) && t[2] == SignIn(email, password)
    && t[|t| - 1] == SetLoading(false)
    && forall k :: 3 <= k < |t| - 1 ==> !t[k].SetLoading? && !t[k].SignIn?
  }

  /** A failed sign-in shows the credentials message and goes no further:
      no profile fetch, no sign-out, no callback. */
  lemma AuthFailedPath(email: string, password: string, profile: ProfileOutcome, shown: string, loading: bool)
    ensures var t := SubmitTrace(email, password, AuthFailed, profile);
      && Bracketed(t, email, password)
      && FinalError(t, shown) == AuthFailedMessage
      && !FinalLoading(t, loading)
      && SignOut !in t
      && forall k :: 0 <= k < |t| ==> !t[k].FetchProfile? && !t[k].LoginSuccess?
  {
  }

  /** A sign-in that reports neither an error nor a user: only the bracketing
      steps happen, so the error stays cleared. */
  lemma NoUserPath(email: string, password: string, profile: ProfileOutcome, shown: string, loading: bool)
    ensures var t := SubmitTrace(email, password, AuthOk(None), profile);
      && Bracketed(t, email, password)
      && FinalError(t, shown) == ""
      && !FinalLoading(t, loading)
      && SignOut !in t
      && forall k :: 0 <= k < |t| ==> !t[k].FetchProfile? && !t[k].LoginSuccess?
  {
    FinalErrorIsLastWrite(SubmitTrace(email, password, AuthOk(None), profile), 0, shown);
  }

  /** A failed profile fetch shows the retry message, signs out once and
      does not call back. */
  lemma FetchFailedPath(email: string, password: string, id: string, shown: string, loading: bool)
    ensures var t := SubmitTrace(email, password, AuthOk(Some(id)), FetchFailed);
      && Bracketed(t, email, password)
      && FinalError(t, shown) == FetchFailedMessage
      && !FinalLoading(t, loading)
      && OccursOnce(t, SignOut)
      && OccursOnce(t, FetchProfile(id))
      && forall k :: 0 <= k < |t| ==> (t[k].FetchProfile? ==> t[k].id == id) && !t[k].LoginSuccess?
  {
    var t := SubmitTrace(email, password, AuthOk(Some(id)), FetchFailed);
    assert t[3] == FetchProfile(id) && t[5] == SignOut;
    FinalErrorIsLastWrite(t, 4, shown);
  }

  /** A profile flagged exactly `false` shows the pending-approval message,
      signs out once and does not call back. */
  lemma PendingApprovalPath(email: string, password: string, id: string, row: ProfileRow, shown: string, loading: bool)
    requires row.isApproved == Some(false)
    ensures var t := SubmitTrace(email, password, AuthOk(Some(id)), Found(row));
      && Bracketed(t, email, password)
      && FinalError(t, shown) == PendingApprovalMessage
      && !FinalLoading(t, loading)
      && OccursOnce(t, SignOut)
      && OccursOnce(t, FetchProfile(id))
      && forall k :: 0 <= k < |t| ==> (t[k].FetchProfile? ==> t[k].id == id) && !t[k].LoginSuccess?
  {
    var t := SubmitTrace(email, password, AuthOk(Some(id)), Found(row));
    assert t[3] == FetchProfile(id) && t[5] == SignOut;
    FinalErrorIsLastWrite(t, 4, shown);
  }

  /** Any other flag (true, null, missing) lets the user in: the callback
      runs once, with the row as fetched, nothing is signed out and the error
      stays cleared. */
  lemma AdmittedPath(email: string, password: string, id: string, row: ProfileRow, shown: string, loading: bool)
    requires row.isApproved != Some(false)
    ensures var t := SubmitTrace(email, password, AuthOk(Some(id)), Found(row));
      && Bracketed(t, email, password)
      && FinalError(t, shown) == ""
      && !FinalLoading(t, loading)
      && SignOut !in t
      && OccursOnce(t, FetchProfile(id))
      && OccursOnce(t, LoginSuccess(row))
      && forall k :: 0 <= k < |t| ==> (t[k].FetchProfile? ==> t[k].id == id) && (t[k].LoginSuccess? ==> t[k].row == row)
  {
    var t := SubmitTrace(email, password, AuthOk(Some(id)), Found(row));
    assert t[3] == FetchProfile(id) && t[4] == LoginSuccess(row);
    FinalErrorIsLastWrite(t, 0, shown);
  }

  /** No profile and no error shows the missing-data message, signs out once
      and does not call back. */
  lemma ProfileMissingPath(email: string, password: string, id: string, shown: string, loading: bool)
    ensures var t := SubmitTrace(email, password, AuthOk(Some(id)), NotFound);
      && Bracketed(t, email, password)
      && FinalError(t, shown) == ProfileMissingMessage
      && !FinalLoading(t, loading)
      && OccursOnce(t, SignOut)
      && OccursOnce(t, FetchProfile(id))
      && forall k :: 0 <= k < |t| ==> (t[k].FetchProfile? ==> t[k].id == id) && !t[k].LoginSuccess?
  {
    var t := SubmitTrace(email, password, AuthOk(Some(id)), NotFound);
    assert t[3] == FetchProfile(id) && t[5] == SignOut;
    FinalErrorIsLastWrite(t, 4, shown);
  }

  /** Every submit, on every combination of outcomes: it is bracketed, it
      leaves loading off and the message of the table above on screen, it
      fetches the profile (once, for the signed-in id) exactly when the
      sign-in produced a user, it signs out (once) exactly after a failure
      that follows a sign-in, and it calls back (once, with the fetched row)
      exactly when the user is admitted. */
  lemma SubmitOutcome(email: string, password: string, auth: AuthOutcome, profile: ProfileOutcome, shown: string, loading: bool)
    ensures var t := SubmitTrace(email, password, auth, profile);
      && Bracketed(t, email, password)
      && FinalError(t, shown) == ShownMessage(auth, profile)
      && !FinalLoading(t, loading)
      && (forall k :: 0 <= k < |t| && t[k].FetchProfile? ==> auth == AuthOk(Some(t[k].id)))
      && (SignedIn(auth) ==> OccursOnce(t, FetchProfile(auth.userId.value)))
      && (if SignedIn(auth) && !Admitted(auth, profile) then OccursOnce(t, SignOut) else SignOut !in t)
      && (forall k :: 0 <= k < |t| && t[k].LoginSuccess? ==> Admitted(auth, profile) && t[k].row == profile.row)
      && (Admitted(auth, profile) ==> OccursOnce(t, LoginSuccess(profile.row)))
  {
    match auth
    case AuthFailed => AuthFailedPath(email, password, profile, shown, loading);
    case AuthOk(None) => NoUserPath(email, password, profile, shown, loading);
    case AuthOk(Some(id)) =>
      match profile
      case FetchFailed => FetchFailedPath(email, password, id, shown, loading);
      case Found(row) =>
        if PendingApproval(row) {
          PendingApprovalPath(email, password, id, row, shown, loading);
        } else {
          AdmittedPath(email, password, id, row, shown, loading);
        }
      case NotFound => ProfileMissingPath(email, password, id, shown, loading);
  }

  /** A sign-out and a success callback never happen in the same submit, and
      a success always leaves the error cleared. */
  lemma SignOutExcludesSuccess(email: string, password: string, auth: AuthOutcome, profile: ProfileOutcome, row: ProfileRow, shown: string)
    requires LoginSuccess(row) in SubmitTrace(email, password, auth, profile)
    ensures SignOut !in SubmitTrace(email, password, auth, profile)
    ensures FinalError(SubmitTrace(email, password, auth, profile), shown) == ""
  {
    SubmitOutcome(email, password, auth, profile, shown, false);
  }

  /** Whatever the screen went through before, a submit leaves the message
      of the table above on screen and loading off. */
  lemma SubmitLeaves(before: seq<Event>, email: string, password: string, auth: AuthOutcome, profile: ProfileOutcome)
    ensures FinalError(before + SubmitTrace(email, password, auth, profile), "") == ShownMessage(auth, profile)
    ensures !FinalLoading(before + SubmitTrace(email, password, auth, profile), false)
  {
    var t := SubmitTrace(email, password, auth, profile);
    SubmitOutcome(email, password, auth, profile, FinalError(before, ""), FinalLoading(before, false));
    FinalErrorAppend(before, t, "");
    FinalLoadingAppend(before, t, false);
  }

  class LoginForm {
    var email: string
    var password: string
    var isPasswordVisible: bool
    var error: string
    var isLoading: bool
    /** Every write and call of the submit handler so far, in order. Those
        go through the setters below, each of which records its own event. */
    ghost var trace: seq<Event>

    /** The error and loading flag are the ones the recorded writes left. */
    ghost predicate Valid()
      reads this
    {
      error == FinalError(trace, "") && isLoading == FinalLoading(trace, false)
    }

    constructor ()
      ensures Valid()
      ensures email == password == error == ""
      ensures !isPasswordVisible && !isLoading && trace == []
    {
      email, password, error := "", "", "";
      isPasswordVisible, isLoading := false, false;
      trace := [];
    }

    /** `setError`. */
    method WriteError(message: string)
      requires Valid()
      modifies this`error, this`trace
      ensures Valid()
      ensures error == message && trace == old(trace) + [SetError(message)]
    {
      FinalLoadingAppend(trace, [SetError(message)], false);
      FinalLoadingUntouched([SetError(message)], isLoading);
      error := message;
      trace := trace + [SetError(message)];
    }

    /** `setIsLoading`. */
    method WriteLoading(on: bool)
      requires Valid()
      modifies this`isLoading, this`trace
      ensures Valid()
      ensures isLoading == on && trace == old(trace) + [SetLoading(on)]
    {
      FinalErrorAppend(trace, [SetLoading(on)], "");
      FinalErrorUntouched([SetLoading(on)], error);
      FinalLoadingIsLastWrite(trace + [SetLoading(on)], |trace|, false);
      isLoading := on;
      trace := trace + [SetLoading(on)];
    }

    /** A call to a collaborator (the identity provider, the profile table
        or the success callback), which writes no state of the form. */
    ghost method Call(e: Event)
      requires Valid() && (e.SignIn? || e.FetchProfile? || e.SignOut? || e.LoginSuccess?)
      modifies this`trace
      ensures Valid() && trace == old(trace) + [e]
    {
      FinalErrorAppend(trace, [e], "");
      FinalErrorUntouched([e], error);
      FinalLoadingAppend(trace, [e], false);
      FinalLoadingUntouched([e], isLoading);
      trace := trace + [e];
    }

    /** The two controlled inputs. */
    method Edit(email: string, password: string)
      requires Valid()
      modifies this
      ensures Valid()
      ensures this.email == email && this.password == password
      ensures isPasswordVisible == old(isPasswordVisible) && error == old(error)
      ensures isLoading == old(isLoading) && trace == old(trace)
    {
      this.email, this.password := email, password;
    }

    /** The eye button: show or mask the password. */
    method TogglePasswordVisibility()
      requires Valid()
      modifies this
      ensures Valid()
      ensures isPasswordVisible == !old(isPasswordVisible)
      ensures email == old(email) && password == old(password) && error == old(error)
      ensures isLoading == old(isLoading) && trace == old(trace)
    {
      isPasswordVisible := !isPasswordVisible;
    }

    /** The part of the submit handler that runs once the sign-in produced
        user `id`: the profile query's answer is an input. */
    method LoadProfile(id: string, profile: ProfileOutcome)
      requires Valid()
      modifies this`error, this`trace
      ensures Valid()
      ensures trace == old(trace) + ProfileSteps(id, profile)
      ensures error == match profile
        case FetchFailed => FetchFailedMessage
        case Found(row) => if PendingApproval(row) then PendingApprovalMessage else old(error)
        case NotFound => ProfileMissingMessage
    {
      ghost var before := trace;
      Call(FetchProfile(id));
      match profile {
        case FetchFailed =>
          WriteError(FetchFailedMessage);
          Call(SignOut);
          assert trace == before + [FetchProfile(id), SetError(FetchFailedMessage), SignOut];
        case Found(row) =>
          if PendingApproval(row) {
            WriteError(PendingApprovalMessage);
            Call(SignOut);
            assert trace == before + [FetchProfile(id), SetError(PendingApprovalMessage), SignOut];
          } else {
            Call(LoginSuccess(row));
            assert trace == before + [FetchProfile(id), LoginSuccess(row)];
          }
        case NotFound =>
          WriteError(ProfileMissingMessage);
          Call(SignOut);
          assert trace == before + [FetchProfile(id), SetError(ProfileMissingMessage), SignOut];
      }
    }

    /** The submit handler, with the sign-in answer and the profile query's
        answer as inputs (the latter is only consulted after a sign-in that
        produced a user). */
    method HandleSubmit(auth: AuthOutcome, profile: ProfileOutcome)
      requires Valid()
      modifies this`error, this`isLoading, this`trace
      ensures Valid()
      ensures trace == old(trace) + SubmitTrace(email, password, auth, profile)
      ensures error == ShownMessage(auth, profile) && !isLoading
      ensures email == old(email) && password == old(password)
      ensures isPasswordVisible == old(isPasswordVisible)
    {
      ghost var before := trace;
      WriteError("");
      WriteLoading(true);
      Call(SignIn(email, password));
      // `rest` is what this submit has recorded so far.
      ghost var rest := [SetError(""), SetLoading(true), SignIn(email, password)];
      assert trace == before + rest;
      match auth {
        case AuthFailed =>
          WriteError(AuthFailedMessage);
          AppendAssoc(before, rest, [SetError(AuthFailedMessage)]);
          rest := rest + [SetError(AuthFailedMessage)];
        case AuthOk(None) =>
        case AuthOk(Some(id)) =>
          LoadProfile(id, profile);
          AppendAssoc(before, rest, ProfileSteps(id, profile));
          SignedInTrace(email, password, id, profile);
          rest := rest + ProfileSteps(id, profile);
      }
      assert rest + [SetLoading(false)] == SubmitTrace(email, password, auth, profile);
      WriteLoading(false);
      AppendAssoc(before, rest, [SetLoading(false)]);
    }
  }

  /** Pressing the eye button twice restores the masking and nothing else changes. */
  method ToggleTwiceRestores(form: LoginForm)
    requires form.Valid()
    modifies form
    ensures form.Valid() && form.trace == old(form.trace)
    ensures form.isPasswordVisible == old(form.isPasswordVisible)
    ensures form.email == old(form.email) && form.password == old(form.password)
    ensures form.error == old(form.error) && form.isLoading == old(form.isLoading)
  {
    form.TogglePasswordVisibility();
    form.TogglePasswordVisibility();
  }
}
