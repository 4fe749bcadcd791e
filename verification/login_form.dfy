/**
 The login / sign-up form as a pure state machine. `Handle` is what the event
 handlers of the component do; `ClearOnFieldChange` is the effect keyed on the
 input values that runs after the render; `Step` is the two together, and `Run`
 folds `Step` over a sequence of events.
 */
module LoginForm {
  import opened AuthTypes
  import opened ErrorMapping
  import opened EffectLog

  /** First render: login mode, blank inputs, no message; `persist` comes from storage. */
  function Initial(persist: bool): (s: FormState)
    ensures s.mode == LoginMode && s.phase == Idle && s.error == "" && s.persist == persist
    ensures forall f :: s.fields.Get(f) == ""
    ensures Consistent(s)
  {
    FormState(LoginMode, Blank, "", persist, Idle)
  }

  /** The submit guard: only sign-up mode compares the two passwords. */
  predicate PasswordsAgree(s: FormState)
    ensures s.mode == LoginMode ==> PasswordsAgree(s)
    ensures s.mode == SignupMode ==> (PasswordsAgree(s) <==> s.fields.Get(Password) == s.fields.Get(ConfirmPassword))
  {
    s.mode == LoginMode || s.fields.password == s.fields.confirmPassword
  }

  /** The call a submit issues from `s`; the confirmation is never sent. */
  function CallFor(s: FormState): (c: Call)
    ensures c.LoginCall? <==> s.mode == LoginMode
    ensures c.username == s.fields.username && c.password == s.fields.password
  {
    if s.mode == LoginMode then LoginCall(s.fields.username, s.fields.password)
    else RegisterCall(s.fields.username, s.fields.password)
  }

  /** Number of calls in flight: one while the loader is shown, none otherwise. */
  function InFlight(s: FormState): nat {
    if s.phase.Submitting? then 1 else 0
  }

  /**
   While a call is in flight it is the call the frozen form would issue, and
   a register call is in flight only for matching passwords.
   */
  predicate Consistent(s: FormState) {
    s.phase.Submitting? ==> s.phase.pending == CallFor(s) && PasswordsAgree(s)
  }

  /**
   Whether `e` can reach a handler. The loader replaces the whole form while a
   call is in flight, so then only its completion arrives; the confirmation
   input is rendered in sign-up mode only; and a completion needs a call.
   */
  predicate Accepts(s: FormState, e: Event)
    ensures s.phase.Submitting? ==> (Accepts(s, e) <==> e.Complete?)
    ensures s.phase.Idle? && e.Complete? ==> !Accepts(s, e)
    ensures e.Edit? && e.field == ConfirmPassword && s.mode == LoginMode ==> !Accepts(s, e)
    ensures s.phase.Idle? && !e.Complete? && !(e.Edit? && e.field == ConfirmPassword && s.mode == LoginMode)
      ==> Accepts(s, e)
  {
    match e
    case Complete(_) => s.phase.Submitting?
    case Edit(f, _) => s.phase.Idle? && (f == ConfirmPassword ==> s.mode == SignupMode)
    case _ => s.phase.Idle?
  }

  /** The submit handler up to the point where the call is issued. */
  function HandleSubmit(s: FormState): (t: Transition)
    requires s.phase.Idle?
    ensures !PasswordsAgree(s) ==> t == Transition(s.(error := PasswordMismatch), [])
    ensures PasswordsAgree(s) ==> t.effects == [RemoteCall(CallFor(s))]
    ensures PasswordsAgree(s) ==> t.state == s.(phase := Submitting(CallFor(s)))
    ensures CallCount(t.effects) == (if PasswordsAgree(s) then 1 else 0)
  {
    if !PasswordsAgree(s) then Transition(s.(error := PasswordMismatch), [])
    else
      var c := CallFor(s);
      Transition(s.(phase := Submitting(c)), [RemoteCall(c)])
  }

  /**
   The rest of the submit handler once `call` settles with `o`: on a login
   success publish the token and redirect, on a register success switch to
   login mode and set the notice, and blank the inputs after either success;
   on a failure show the mapped message and keep the inputs.
   */
  function HandleCompletion(s: FormState, call: Call, o: Outcome): (t: Transition)
    ensures t.state.phase == Idle && t.state.persist == s.persist
    ensures CallCount(t.effects) == 0
    ensures o.Failed? ==> t.effects == [] && t.state == s.(phase := Idle, error := ErrorMessage(o.failure))
    ensures o.Succeeded? ==> t.state.fields == Blank
    ensures o.Succeeded? && call.LoginCall? ==>
      t.effects == [PublishToken(o.accessToken), Navigate(DashboardPath)]
      && t.state.mode == s.mode && t.state.error == s.error
    ensures o.Succeeded? && call.RegisterCall? ==>
      t.effects == [] && t.state.mode == LoginMode && t.state.error == SignupNotice
  {
    var idle := s.(phase := Idle);
    match o
    case Failed(f) => Transition(idle.(error := ErrorMessage(f)), [])
    case Succeeded(token) =>
      match call
      case LoginCall(_, _) =>
        var effs := [PublishToken(token), Navigate(DashboardPath)];
        assert effs[1..][1..] == [] && CallCount(effs[1..]) == 0;
        Transition(idle.(fields := Blank), effs)
      case RegisterCall(_, _) =>
        Transition(idle.(error := SignupNotice, mode := LoginMode, fields := Blank), [])
  }

  /** What the handlers do with one event, before the value-keyed effect runs. */
  function Handle(s: FormState, e: Event): (t: Transition)
    ensures !Accepts(s, e) ==> t == Transition(s, [])
    ensures e.Edit? ==> t.effects == [] && t.state == s.(fields := t.state.fields)
    ensures e.Edit? && Accepts(s, e) ==>
      t.state.fields.Get(e.field) == e.value
      && forall g :: g != e.field ==> t.state.fields.Get(g) == s.fields.Get(g)
    ensures e.ToggleMode? && Accepts(s, e) ==>
      t.effects == [] && t.state == s.(mode := s.mode.Flip(), error := "")
    ensures t.state.persist != s.persist <==> e.TogglePersist? && Accepts(s, e)
    ensures e.TogglePersist? ==> t.effects == [] && t.state == s.(persist := t.state.persist)
  {
    if !Accepts(s, e) then Transition(s, [])
    else match e
      case Edit(f, v) => Transition(s.(fields := s.fields.Set(f, v)), [])
      case ToggleMode => Transition(s.(mode := s.mode.Flip(), error := ""), [])
      case TogglePersist => Transition(s.(persist := !s.persist), [])
      case Submit => HandleSubmit(s)
      case Complete(o) => HandleCompletion(s, s.phase.pending, o)
  }

  /**
   The effect keyed on the three input values: when any of them differs from
   the previous render, the message is cleared. Nothing else changes.
   */
  function ClearOnFieldChange(prev: FormState, next: FormState): (r: FormState)
    ensures r == next.(error := r.error)
    ensures prev.fields != next.fields ==> r.error == ""
    ensures prev.fields == next.fields ==> r == next
  {
    if prev.fields != next.fields then next.(error := "") else next
  }

  /** One event: the handlers, then the effect on the values they left. */
  function Step(s: FormState, e: Event): (t: Transition)
    ensures !Accepts(s, e) ==> t == Transition(s, [])
    ensures t.state.fields != s.fields ==> t.state.error == ""
    ensures t.state.fields != s.fields ==> Accepts(s, e) && (e.Edit? || e.Complete?)
    ensures Consistent(s) ==> Consistent(t.state)
    ensures CallCount(t.effects) > 0 <==> s.phase.Idle? && e.Submit? && PasswordsAgree(s)
    ensures CallCount(t.effects) + InFlight(s) <= (if e.Complete? then 1 else 0) + InFlight(t.state)
    ensures (exists i :: 0 <= i < |t.effects| && t.effects[i].PublishToken?) <==>
      s.phase.Submitting? && s.phase.pending.LoginCall? && e.Complete? && e.outcome.Succeeded?
    ensures Paired(t.effects)
  {
    var h := Handle(s, e);
    Transition(ClearOnFieldChange(s, h.state), h.effects)
  }

  /** The events `evs` dispatched one after another from `s`, with all their effects. */
  function Run(s: FormState, evs: seq<Event>): (t: Transition)
    ensures Consistent(s) ==> Consistent(t.state)
    ensures CallCount(t.effects) + InFlight(s) <= CompletionCount(evs) + InFlight(t.state)
    ensures Paired(t.effects)
    decreases |evs|
  {
    if evs == [] then Transition(s, [])
    else
      var first := Step(s, evs[0]);
      var rest := Run(first.state, evs[1..]);
      CallCountAppend(first.effects, rest.effects);
      PairedAppend(first.effects, rest.effects);
      Transition(rest.state, first.effects + rest.effects)
  }
}
