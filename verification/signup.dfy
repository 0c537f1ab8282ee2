/** The signup screen: local validation of the registration form and the
    deferred append of a new, unapproved member to the application's shared
    user list. */
module Signup {
  import opened Types
  import opened Events

  const MismatchMessage := "Kata sandi tidak cocok."
  const DuplicateEmailMessage := "Email sudah terdaftar."
  const MemberRole := "Member"
  const DefaultPermissions: seq<ViewType> := [Clients, Projects, Calendar]

  /** Whether some registered user has exactly this email (case-sensitive,
      no trimming): the list's `some` query. */
  function EmailTaken(users: seq<User>, email: string): (taken: bool)
    ensures taken <==> exists i :: 0 <= i < |users| && users[i].email == email
  {
    if users == [] then false
    else users[0].email == email || EmailTaken(users[1..], email)
  }

  /** How a submit is decided before anything is scheduled. */
  datatype Verdict = PasswordMismatch | DuplicateEmail | Accepted

  /** The validation of a submit. The password check comes first, so a
      mismatch is reported even when the email is also taken. */
  function Check(users: seq<User>, email: string, password: string, confirmPassword: string): (v: Verdict)
    ensures v == PasswordMismatch <==> password != confirmPassword
    ensures v == DuplicateEmail <==>
      password == confirmPassword && exists i :: 0 <= i < |users| && users[i].email == email
    ensures v == Accepted <==>
      password == confirmPassword && forall i :: 0 <= i < |users| ==> users[i].email != email
  {
    if password != confirmPassword then PasswordMismatch
    else if EmailTaken(users, email) then DuplicateEmail
    else Accepted
  }

  /** The message shown once a submit has been decided. */
  function Message(v: Verdict): (msg: string)
    ensures msg == "" <==> v == Accepted
  {
    match v
    case PasswordMismatch => MismatchMessage
    case DuplicateEmail => DuplicateEmailMessage
    case Accepted => ""
  }

  /** The state writes a submit makes synchronously, in order. */
  function SubmitWrites(v: Verdict): (t: seq<Event>)
    ensures |t| == 2 && t[0] == SetError("")
    ensures SetLoading(true) in t <==> v == Accepted
    ensures forall shown :: FinalError(t, shown) == Message(v)
    ensures forall k :: 0 <= k < |t| ==> !t[k].AppendUser? && !t[k].SetSubmitted?
  {
    match v
    case PasswordMismatch => [SetError(""), SetError(MismatchMessage)]
    case DuplicateEmail => [SetError(""), SetError(DuplicateEmailMessage)]
    case Accepted => [SetError(""), SetLoading(true)]
  }

  /** Whatever the screen went through before, a submit leaves its verdict's
      message on screen, and loading on exactly when it was accepted (it was
      off, since the button is disabled while loading). */
  lemma SubmitWritesLeave(before: seq<Event>, v: Verdict)
    requires !FinalLoading(before, false)
    ensures FinalError(before + SubmitWrites(v), "") == Message(v)
    ensures FinalLoading(before + SubmitWrites(v), false) == (v == Accepted)
  {
    var t := SubmitWrites(v);
    FinalErrorAppend(before, t, "");
    FinalLoadingAppend(before, t, false);
    if v != Accepted {
      FinalLoadingUntouched(t, false);
    }
  }

  /** The form values the timer continuation captured when it was scheduled. */
  datatype Draft = Draft(fullName: string, email: string, password: string)

  /** The record a completed signup appends: the captured form values, an
      ordinary member with the default grants, waiting for approval. */
  function NewMember(id: string, d: Draft): (u: User)
    ensures u.id == id && u.fullName == d.fullName && u.email == d.email && u.password == d.password
    ensures u.role == MemberRole && u.permissions == [Clients, Projects, Calendar] && !u.isApproved
  {
    User(id, d.fullName, d.email, d.password, MemberRole, DefaultPermissions, false)
  }

  predicate UniqueEmails(users: seq<User>)
  {
    forall i, j :: 0 <= i < j < |users| ==> users[i].email != users[j].email
  }

  predicate UniqueIds(users: seq<User>)
  {
    forall i, j :: 0 <= i < j < |users| ==> users[i].id != users[j].id
  }

  /** Appending the draft that passed the check against this same list keeps
      every email in the list distinct. */
  lemma SignupKeepsEmailsUnique(users: seq<User>, d: Draft, confirmPassword: string, id: string)
    requires UniqueEmails(users)
    requires Check(users, d.email, d.password, confirmPassword) == Accepted
    ensures UniqueEmails(users + [NewMember(id, d)])
  {
  }

  /** An id no registered user carries keeps the ids distinct. The id comes
      from the platform's random UUID generator; nothing here checks it. */
  lemma FreshIdKeepsIdsUnique(users: seq<User>, d: Draft, id: string)
    requires UniqueIds(users)
    requires forall i :: 0 <= i < |users| ==> users[i].id != id
    ensures UniqueIds(users + [NewMember(id, d)])
  {
  }

  /** Once a member has been appended, submitting the same email again is
      refused as a duplicate (passwords that match assumed, since a mismatch
      is reported first). */
  lemma ResubmitIsDuplicate(users: seq<User>, d: Draft, id: string, password: string)
    ensures Check(users + [NewMember(id, d)], d.email, password, password) == DuplicateEmail
  {
    var after := users + [NewMember(id, d)];
    assert after[|users|].email == d.email;
  }

  /** The application's shared user list. It is owned by the parent
      component; the signup screen reads it and appends to it. */
  class UserDirectory {
    var users: seq<User>

    constructor (users: seq<User>)
      ensures this.users == users
    {
      this.users := users;
    }
  }

  /** What the signup component renders. */
  datatype Screen = RegistrationForm | Confirmation

  class SignupForm {
    const directory: UserDirectory
    var fullName: string
    var email: string
    var password: string
    var confirmPassword: string
    var error: string
    var isLoading: bool
    var isSubmitted: bool
    /** The pending timer continuation and the values its closure captured. */
    var scheduled: Option<Draft>
    /** Every write of the submit handler and its continuation so far, in
        order. Those writes go through the setters below, each of which
        records its own event. */
    ghost var trace: seq<Event>

    /** The error and loading flag are the ones the recorded writes left. */
    ghost predicate Synced()
      reads this
    {
      error == FinalError(trace, "") && isLoading == FinalLoading(trace, false)
    }

    /** Besides, loading is shown exactly while a continuation is pending. */
    ghost predicate Valid()
      reads this
    {
      Synced() && (isLoading <==> scheduled.Some?)
    }

    constructor (directory: UserDirectory)
      ensures Valid()
      ensures this.directory == directory
      ensures fullName == email == password == confirmPassword == error == ""
      ensures !isLoading && !isSubmitted && scheduled == None && trace == []
    {
      this.directory := directory;
      fullName, email, password, confirmPassword, error := "", "", "", "", "";
      isLoading, isSubmitted, scheduled := false, false, None;
      trace := [];
    }

    /** `setError`. */
    method WriteError(message: string)
      requires Synced()
      modifies this`error, this`trace
      ensures Synced()
      ensures error == message && trace == old(trace) + [SetError(message)]
    {
      FinalLoadingAppend(trace, [SetError(message)], false);
      FinalLoadingUntouched([SetError(message)], isLoading);
      error := message;
      trace := trace + [SetError(message)];
    }

    /** `setIsLoading`. */
    method WriteLoading(on: bool)
      requires Synced()
      modifies this`isLoading, this`trace
      ensures Synced()
      ensures isLoading == on && trace == old(trace) + [SetLoading(on)]
    {
      FinalErrorAppend(trace, [SetLoading(on)], "");
      FinalErrorUntouched([SetLoading(on)], error);
      FinalLoadingIsLastWrite(trace + [SetLoading(on)], |trace|, false);
      isLoading := on;
      trace := trace + [SetLoading(on)];
    }

    /** `setIsSubmitted`. */
    method WriteSubmitted(on: bool)
      requires Synced()
      modifies this`isSubmitted, this`trace
      ensures Synced()
      ensures isSubmitted == on && trace == old(trace) + [SetSubmitted(on)]
    {
      FinalErrorAppend(trace, [SetSubmitted(on)], "");
      FinalErrorUntouched([SetSubmitted(on)], error);
      FinalLoadingAppend(trace, [SetSubmitted(on)], false);
      FinalLoadingUntouched([SetSubmitted(on)], isLoading);
      isSubmitted := on;
      trace := trace + [SetSubmitted(on)];
    }

    /** `setUsers(prev => [...prev, user])`: append to the shared list as it
        is now. */
    method AppendToDirectory(user: User)
      requires Synced()
      modifies directory`users, this`trace
      ensures Synced()
      ensures directory.users == old(directory.users) + [user]
      ensures trace == old(trace) + [AppendUser(user)]
    {
      FinalErrorAppend(trace, [AppendUser(user)], "");
      FinalErrorUntouched([AppendUser(user)], error);
      FinalLoadingAppend(trace, [AppendUser(user)], false);
      FinalLoadingUntouched([AppendUser(user)], isLoading);
      directory.users := directory.users + [user];
      trace := trace + [AppendUser(user)];
    }

    /** The confirmation replaces the form once the signup has completed. */
    function View(): (s: Screen)
      reads this
      ensures s == Confirmation <==> isSubmitted
    {
      if isSubmitted then Confirmation else RegistrationForm
    }

    /** The four controlled inputs. */
    method Edit(fullName: string, email: string, password: string, confirmPassword: string)
      requires Valid()
      modifies this
      ensures Valid()
      ensures this.fullName == fullName && this.email == email
      ensures this.password == password && this.confirmPassword == confirmPassword
      ensures error == old(error) && isLoading == old(isLoading) && isSubmitted == old(isSubmitted)
      ensures scheduled == old(scheduled) && trace == old(trace)
    {
      this.fullName, this.email, this.password, this.confirmPassword := fullName, email, password, confirmPassword;
    }

    /** The synchronous part of the submit handler. The submit button is
        disabled while loading, so no continuation is pending, and the form
        is gone once the confirmation is shown. */
    method Submit()
      requires Valid() && !isLoading && !isSubmitted
      modifies this
      ensures Valid()
      ensures unchanged(directory)
      ensures var v := Check(directory.users, email, password, confirmPassword);
        && trace == old(trace) + SubmitWrites(v)
        && error == Message(v)
        && isLoading == (v == Accepted)
        && scheduled == (if v == Accepted then Some(Draft(fullName, email, password)) else None)
      ensures fullName == old(fullName) && email == old(email)
      ensures password == old(password) && confirmPassword == old(confirmPassword)
      ensures !isSubmitted && View() == RegistrationForm
    {
      WriteError("");
      if password != confirmPassword {
        WriteError(MismatchMessage);
      } else if EmailTaken(directory.users, email) {
        WriteError(DuplicateEmailMessage);
      } else {
        WriteLoading(true);
        scheduled := Some(Draft(fullName, email, password));
      }
    }

    /** The timer continuation: append the captured draft as a new member to
        the current list, then leave loading and show the confirmation. */
    method Complete(id: string)
      requires Valid() && scheduled.Some?
      modifies this, directory
      ensures Valid()
      ensures directory.users == old(directory.users) + [NewMember(id, old(scheduled).value)]
      ensures trace == old(trace) + [AppendUser(NewMember(id, old(scheduled).value)), SetLoading(false), SetSubmitted(true)]
      ensures !isLoading && isSubmitted && scheduled == None && View() == Confirmation
      ensures error == old(error) && fullName == old(fullName) && email == old(email)
      ensures password == old(password) && confirmPassword == old(confirmPassword)
    {
      AppendToDirectory(NewMember(id, scheduled.value));
      WriteLoading(false);
      WriteSubmitted(true);
      scheduled := None;
    }
  }

  /** A submit followed by its continuation with no other writer of the list
      in between: the list grows by one exactly when the submit was accepted,
      distinct emails stay distinct, and distinct ids stay distinct when the
      new id is fresh. */
  method SubmitThenComplete(form: SignupForm, id: string) returns (v: Verdict)
    requires form.Valid() && !form.isLoading && !form.isSubmitted
    modifies form, form.directory
    ensures form.Valid()
    ensures v == Check(old(form.directory.users), form.email, form.password, form.confirmPassword)
    ensures v == Accepted ==>
      form.directory.users == old(form.directory.users) + [NewMember(id, Draft(form.fullName, form.email, form.password))]
    ensures v != Accepted ==> form.directory.users == old(form.directory.users)
    ensures UniqueEmails(old(form.directory.users)) ==> UniqueEmails(form.directory.users)
    ensures UniqueIds(old(form.directory.users)) && (forall i :: 0 <= i < |old(form.directory.users)| ==> old(form.directory.users)[i].id != id)
      ==> UniqueIds(form.directory.users)
    ensures form.View() == (if v == Accepted then Confirmation else RegistrationForm)
  {
    v := Check(form.directory.users, form.email, form.password, form.confirmPassword);
    form.Submit();
    if form.isLoading {
      var users := form.directory.users;
      var d := form.scheduled.value;
      if UniqueEmails(users) {
        SignupKeepsEmailsUnique(users, d, form.confirmPassword, id);
      }
      if UniqueIds(users) && forall i :: 0 <= i < |users| ==> users[i].id != id {
        FreshIdKeepsIdsUnique(users, d, id);
      }
      form.Complete(id);
    }
  }
}
