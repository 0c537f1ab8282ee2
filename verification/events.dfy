/** What a submit handler does, step by step, as a trace of events: writes to
    the component's state and calls to its collaborators, in program order.
    The screens keep such a trace as ghost state so that the order of the
    steps, and not only the final state, can be stated and proved. */
module Events {
  import opened Types

  datatype Event =
    | SetError(message: string)      // setError(message)
    | SetLoading(on: bool)           // setIsLoading(on)
    | SetSubmitted(on: bool)         // setIsSubmitted(on)
    | AppendUser(user: User)         // setUsers(prev => [...prev, user])
    | SignIn(email: string, password: string)  // auth.signInWithPassword
    | FetchProfile(id: string)       // select one row of `users` by id
    | SignOut                        // auth.signOut()
    | LoginSuccess(row: ProfileRow)  // onLoginSuccess(row)

  /** The error message shown after the writes of `t`, when `current` was shown before. */
  function FinalError(t: seq<Event>, current: string): (msg: string)
  {
    if t == [] then current
    else if t[|t| - 1].SetError? then t[|t| - 1].message
    else FinalError(t[..|t| - 1], current)
  }

  /** The loading flag after the writes of `t`, when it was `current` before. */
  function FinalLoading(t: seq<Event>, current: bool): (on: bool)
  {
    if t == [] then current
    else if t[|t| - 1].SetLoading? then t[|t| - 1].on
    else FinalLoading(t[..|t| - 1], current)
  }

  /** `e` happens exactly once in `t`. */
  predicate OccursOnce(t: seq<Event>, e: Event)
  {
    && (exists k :: 0 <= k < |t| && t[k] == e)
    && forall j, k :: 0 <= j < k < |t| && t[j] == e ==> t[k] != e
  }

  /** The shown message is the last one written: once `t[i]` writes a
      message and no later event writes the error, that message is shown,
      whatever was shown before. */
  lemma {:induction false} FinalErrorIsLastWrite(t: seq<Event>, i: nat, current: string)
    requires i < |t| && t[i].SetError?
    requires forall k :: i < k < |t| ==> !t[k].SetError?
    ensures FinalError(t, current) == t[i].message
  {
    if i < |t| - 1 {
      FinalErrorIsLastWrite(t[..|t| - 1], i, current);
    }
  }

  /** Writes after `a` start from what `a` left: the message shown after
      `a + b` is the one `b` leaves when started from `a`'s message. */
  lemma {:induction false} FinalErrorAppend(a: seq<Event>, b: seq<Event>, current: string)
    ensures FinalError(a + b, current) == FinalError(b, FinalError(a, current))
  {
    if b == [] {
      assert a + b == a;
    } else {
      assert (a + b)[..|a + b| - 1] == a + b[..|b| - 1];
      FinalErrorAppend(a, b[..|b| - 1], current);
    }
  }

  /** The same for the loading flag. */
  lemma {:induction false} FinalLoadingAppend(a: seq<Event>, b: seq<Event>, current: bool)
    ensures FinalLoading(a + b, current) == FinalLoading(b, FinalLoading(a, current))
  {
    if b == [] {
      assert a + b == a;
    } else {
      assert (a + b)[..|a + b| - 1] == a + b[..|b| - 1];
      FinalLoadingAppend(a, b[..|b| - 1], current);
    }
  }

  /** Writes that leave the error alone leave the shown message as it was. */
  lemma {:induction false} FinalErrorUntouched(t: seq<Event>, current: string)
    requires forall k :: 0 <= k < |t| ==> !t[k].SetError?
    ensures FinalError(t, current) == current
  {
    if t != [] {
      FinalErrorUntouched(t[..|t| - 1], current);
    }
  }

  /** Writes that leave loading alone leave the flag as it was. */
  lemma {:induction false} FinalLoadingUntouched(t: seq<Event>, current: bool)
    requires forall k :: 0 <= k < |t| ==> !t[k].SetLoading?
    ensures FinalLoading(t, current) == current
  {
    if t != [] {
      FinalLoadingUntouched(t[..|t| - 1], current);
    }
  }

  /** The loading flag is the last one written. */
  lemma {:induction false} FinalLoadingIsLastWrite(t: seq<Event>, i: nat, current: bool)
    requires i < |t| && t[i].SetLoading?
    requires forall k :: i < k < |t| ==> !t[k].SetLoading?
    ensures FinalLoading(t, current) == t[i].on
  {
    if i < |t| - 1 {
      FinalLoadingIsLastWrite(t[..|t| - 1], i, current);
    }
  }

  /** Appending in two steps is appending once. */
  lemma AppendAssoc(a: seq<Event>, b: seq<Event>, c: seq<Event>)
    ensures (a + b) + c == a + (b + c)
  {
  }
}
