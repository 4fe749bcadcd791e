/**
 Properties of the login / sign-up form, one event at a time and over whole
 runs. Where the handler and the value-keyed effect disagree about the message,
 both the handler-level result and the result after the effect are stated.
 */
module LoginProperties {
  import opened AuthTypes
  import opened ErrorMapping
  import opened EffectLog
  import opened LoginForm

  /**
   The browser's constraint validation on the `required` inputs: a submit
   reaches the handler only with a username, a password and, in sign-up mode,
   a confirmation.
   */
  predicate RequiredFilled(s: FormState) {
    s.fields.username != "" && s.fields.password != ""
    && (s.mode == SignupMode ==> s.fields.confirmPassword != "")
  }

  // ---- Submit guard --------------------------------------------------------

  /** A sign-up with mismatched passwords sets the message and changes nothing else. */
  lemma SignupMismatchRejected(s: FormState)
    requires s.phase.Idle? && s.mode == SignupMode
    requires s.fields.password != s.fields.confirmPassword
    ensures Step(s, Submit) == Transition(s.(error := PasswordMismatch), [])
  {
  }

  /** In login mode a submit issues exactly one login call, whatever the confirmation holds. */
  lemma LoginSubmitIgnoresConfirmation(s: FormState, confirm: string)
    requires s.phase.Idle? && s.mode == LoginMode
    ensures Step(s, Submit).effects == [RemoteCall(LoginCall(s.fields.username, s.fields.password))]
    ensures Step(s, Submit).state == s.(phase := Submitting(LoginCall(s.fields.username, s.fields.password)))
    ensures var s' := s.(fields := s.fields.(confirmPassword := confirm));
      Step(s', Submit).effects == Step(s, Submit).effects
  {
  }

  /** In sign-up mode with matching passwords a submit issues exactly one register call. */
  lemma SignupSubmitRegisters(s: FormState)
    requires s.phase.Idle? && s.mode == SignupMode
    requires s.fields.password == s.fields.confirmPassword
    ensures Step(s, Submit).effects == [RemoteCall(RegisterCall(s.fields.username, s.fields.password))]
    ensures Step(s, Submit).state.phase.Submitting?
  {
  }

  // ---- Completion of the remote call ----------------------------------------

  /** A failure shows the mapped message; the inputs keep their values, so the message survives. */
  lemma FailureMessageSurvives(s: FormState, f: Failure)
    requires s.phase.Submitting?
    ensures Step(s, Complete(Failed(f))) == Transition(s.(phase := Idle, error := ErrorMessage(f)), [])
  {
  }

  /** A 401 always reads "Invalid username or password", whatever the server said. */
  lemma UnauthorizedFailureMessage(s: FormState, f: Failure)
    requires s.phase.Submitting? && f.status == Some(UnauthorizedStatus)
    ensures Step(s, Complete(Failed(f))).state.error == InvalidCredentials
  {
  }

  /** A login success publishes exactly the returned token, redirects once and blanks the inputs. */
  lemma LoginSuccess(s: FormState, token: string)
    requires s.phase.Submitting? && s.phase.pending.LoginCall?
    ensures var t := Step(s, Complete(Succeeded(token)));
      && t.effects == [PublishToken(token), Navigate(DashboardPath)]
      && t.state.fields == Blank
      && t.state.phase == Idle
      && t.state.mode == s.mode
      && t.state.persist == s.persist
  {
  }

  /** Handler level: a sign-up success switches to login mode, blanks the inputs and sets the notice. */
  lemma SignupSuccessHandler(s: FormState, token: string)
    requires s.phase.Submitting? && s.phase.pending.RegisterCall?
    ensures Handle(s, Complete(Succeeded(token)))
      == Transition(s.(phase := Idle, mode := LoginMode, fields := Blank, error := SignupNotice), [])
  {
  }

  /**
   After the effect: the notice survives exactly when the inputs were already
   blank; otherwise blanking them clears it. No token, no redirect.
   */
  lemma SignupSuccessAfterEffect(s: FormState, token: string)
    requires s.phase.Submitting? && s.phase.pending.RegisterCall?
    ensures var t := Step(s, Complete(Succeeded(token)));
      && t.effects == []
      && t.state.mode == LoginMode
      && t.state.fields == Blank
      && (t.state.error == SignupNotice <==> s.fields == Blank)
      && (t.state.error == "" <==> s.fields != Blank)
  {
  }

  /**
   In a sign-up that passes the browser's validation, the notice does not survive
   the clearing effect: the register call is issued, and its success settles
   with no message.
   */
  lemma SignupNoticeOverwritten(s: FormState, token: string)
    requires s.phase.Idle? && s.mode == SignupMode && RequiredFilled(s)
    requires s.fields.password == s.fields.confirmPassword
    ensures var t := Run(s, [Submit, Complete(Succeeded(token))]);
      && t.effects == [RemoteCall(RegisterCall(s.fields.username, s.fields.password))]
      && t.state.mode == LoginMode
      && t.state.fields == Blank
      && t.state.error == ""
  {
    var first := Step(s, Submit);
    var second := Step(first.state, Complete(Succeeded(token)));
    assert first.state.fields == s.fields != Blank;
    assert Run(first.state, [Complete(Succeeded(token))]) == Transition(second.state, second.effects + []) by {
      assert [Complete(Succeeded(token))][1..] == [];
    }
    assert [Submit, Complete(Succeeded(token))][1..] == [Complete(Succeeded(token))];
  }

  // ---- Toggles and edits ---------------------------------------------------

  /** Toggling the mode flips it and clears the message; the inputs are untouched. */
  lemma ToggleModeFlips(s: FormState)
    requires s.phase.Idle?
    ensures Step(s, ToggleMode) == Transition(s.(mode := s.mode.Flip(), error := ""), [])
  {
  }

  /** Toggling twice restores the mode and the inputs, with the message cleared. */
  lemma ToggleModeTwice(s: FormState)
    requires s.phase.Idle?
    ensures Step(Step(s, ToggleMode).state, ToggleMode) == Transition(s.(error := ""), [])
  {
  }

  /** Toggling "Trust This Device" flips only the persist flag. */
  lemma TogglePersistOnly(s: FormState)
    requires s.phase.Idle?
    ensures Step(s, TogglePersist) == Transition(s.(persist := !s.persist), [])
  {
  }

  /** Handler level: an edit sets the one input and leaves the message alone. */
  lemma EditHandlerKeepsError(s: FormState, f: Field, v: string)
    requires Accepts(s, Edit(f, v))
    ensures Handle(s, Edit(f, v)) == Transition(s.(fields := s.fields.Set(f, v)), [])
  {
  }

  /**
   After the effect: an edit that changes the value clears the message, and an
   edit that rewrites the same value changes nothing at all.
   */
  lemma EditClearsErrorIffChanged(s: FormState, f: Field, v: string)
    requires Accepts(s, Edit(f, v))
    ensures var t := Step(s, Edit(f, v));
      && t.effects == []
      && t.state.fields.Get(f) == v
      && (s.fields.Get(f) != v ==> t.state == s.(fields := s.fields.Set(f, v), error := ""))
      && (s.fields.Get(f) == v ==> t.state == s)
  {
  }

  /** The confirmation input exists only in sign-up mode, so login mode ignores edits to it. */
  lemma ConfirmationNotEditableInLoginMode(s: FormState, v: string)
    requires s.mode == LoginMode
    ensures Step(s, Edit(ConfirmPassword, v)) == Transition(s, [])
  {
  }

  // ---- Loading guard and whole runs -----------------------------------------

  /** While the loader is shown, every form event is ignored. */
  lemma LoadingIgnoresFormEvents(s: FormState, e: Event)
    requires s.phase.Submitting? && !e.Complete?
    ensures Step(s, e) == Transition(s, [])
  {
  }

  /** Every state reachable from the first render is consistent. */
  lemma ReachableConsistent(persist: bool, evs: seq<Event>)
    ensures Consistent(Run(Initial(persist), evs).state)
  {
  }

  /**
   From an idle form, the calls issued never exceed the completion events
   dispatched plus one. Completions dispatched while idle are ignored but still
   counted, so this is a bound, not an exact balance.
   */
  lemma CallsBoundedByCompletions(s: FormState, evs: seq<Event>)
    requires s.phase.Idle?
    ensures CallCount(Run(s, evs).effects) <= CompletionCount(evs) + 1
  {
  }

  /** While a call is in flight, nothing issues another until a completion arrives. */
  lemma NoCallBeforeCompletion(s: FormState, evs: seq<Event>)
    requires s.phase.Submitting? && CompletionCount(evs) == 0
    ensures CallCount(Run(s, evs).effects) == 0
  {
  }

  /** A login from a filled form: one login call, then the token and one redirect, then blank inputs. */
  lemma LoginRoundTrip(s: FormState, token: string)
    requires s.phase.Idle? && s.mode == LoginMode
    ensures var t := Run(s, [Submit, Complete(Succeeded(token))]);
      && t.effects == [RemoteCall(LoginCall(s.fields.username, s.fields.password)),
                       PublishToken(token), Navigate(DashboardPath)]
      && t.state.fields == Blank
      && t.state.phase == Idle
  {
    var first := Step(s, Submit);
    var second := Step(first.state, Complete(Succeeded(token)));
    assert Run(first.state, [Complete(Succeeded(token))]) == Transition(second.state, second.effects + []) by {
      assert [Complete(Succeeded(token))][1..] == [];
    }
    assert [Submit, Complete(Succeeded(token))][1..] == [Complete(Succeeded(token))];
  }
}
