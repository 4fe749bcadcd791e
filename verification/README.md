# Login / sign-up form of the employee-management client, as a state machine

The authentication screen of the client (`src/features/auth/Login.js`) collects a
username, a password and, for sign-up, a confirmation. It submits them to the
auth API as a login or a register call. A login success publishes the access
token to the session store and redirects to `/dash`. A sign-up success switches
the form back to login mode. A failure shows a message in the live region.

This project models that component as a pure state machine:

- `AuthTypes` holds the data model. `FormState` has the mode, the three input
  values, the message, the persist flag and the phase. `Event` covers edits, the
  two toggles, submit and the completion of the remote call. `Effect` covers the
  remote call, publishing the token and navigation.
- `ErrorMapping` turns a rejected call into the message the form shows.
- `LoginForm.Handle` is what the event handlers do. `LoginForm.ClearOnFieldChange`
  is the effect keyed on the three input values. `LoginForm.Step` runs one, then
  the other. `LoginForm.Run` folds `Step` over a sequence of events.
- `EffectLog` counts calls and completions over a run. It also checks that every
  published token is followed at once by the redirect.
- `LoginProperties` states the form's guarantees per event and over whole runs.

The remote call is not made. Its outcome (`Succeeded(token)` or
`Failed(status, message)`) arrives as the `Complete` event. While a call is in
flight the phase is `Submitting(call)`. In that phase the component renders only
the loader, so every other event is ignored.

Message clearing is driven by values, as in the component. The edit handlers
only set a value. The message is cleared afterwards, and only if some input value
differs from the previous render. So an edit that rewrites the same value keeps
the message. A failed submit leaves the inputs alone, so its message survives.
A successful submit blanks the inputs, so the effect also clears the message.

Three consequences of the code are worth spelling out:

- The value-keyed effect (`Login.js:35-37`) clears the message only when an
  input value actually changes. An edit that writes the same value leaves it.
- An empty `data.message` is falsy, so it falls back to "An unexpected error
  occurred" just like a missing one (`Login.js:68`).
- After a sign-up success the handler sets the notice (`Login.js:59`) and blanks
  the inputs (`Login.js:64-66`). Blanking re-triggers the clearing effect, which
  overwrites the notice unless all three inputs were already blank. The browser's
  `required` validation rules that out, so the notice does not survive the
  clearing effect (`LoginProperties.SignupNoticeOverwritten`). Whether it is
  briefly rendered before the effect runs depends on render timing, which the
  model does not cover.

## Model

| member | source | states |
|---|---|---|
| ErrorMapping.ErrorMessage | src/features/auth/Login.js:67-69 | A 401 gives "Invalid username or password" whatever the server said. Any other status gives a non-empty server message verbatim, else "An unexpected error occurred". The result is never empty, so a failure is always visible |
| ErrorMapping.Classify | src/features/auth/Login.js:68-69 | The failure taxonomy, each kind as an if-and-only-if: unauthorized exactly when the status is 401; server-reported exactly when the status is not 401 and a non-empty message is present, carrying that message; unclassified exactly otherwise |
| ErrorMapping.HasServerMessage | src/features/auth/Login.js:68 | JavaScript truthiness of a string `data.message`: a missing or empty message is falsy, and every non-empty message is truthy |
| LoginForm.Initial | src/features/auth/Login.js:16-21 | The first render is in login mode with all three inputs blank, no message, no call in flight, the stored persist flag, and a consistent state |
| LoginForm.PasswordsAgree | src/features/auth/Login.js:47 | The submit guard never fails in login mode. In sign-up mode it passes exactly when password and confirmation are equal |
| LoginForm.Accepts | src/features/auth/Login.js:82-84 | While a call is in flight only its completion is accepted. An idle form ignores completions and, in login mode, edits to the confirmation input, which is rendered only in sign-up mode (lines 125-138). It accepts every other event |
| ErrorMapping.ErrorMessageMatchesKind | src/features/auth/Login.js:68-69 | The shown message equals the text of the failure's kind: the handler's expression agrees with the taxonomy |
| ErrorMapping.UnauthorizedIgnoresServerMessage | src/features/auth/Login.js:69 | Under a 401, replacing the server message by any other leaves the shown message unchanged |
| ErrorMapping.ErrorMessageOrigin | src/features/auth/Login.js:68-69 | The shown message is one of the two fixed texts or exactly the server's message, and is non-empty |
| LoginForm.CallFor | src/features/auth/Login.js:53-58 | Login mode issues a login call and sign-up mode a register call. Both carry the current username and password; the confirmation is never sent |
| LoginForm.HandleSubmit | src/features/auth/Login.js:44-58 | A sign-up with mismatched passwords sets "Passwords do not match" and issues no call. Otherwise exactly one call for the current mode is issued and the form enters the loading phase |
| LoginForm.HandleCompletion | src/features/auth/Login.js:52-71 | A login success publishes the returned token, then redirects to /dash. A sign-up success switches to login mode with the notice and emits nothing. Both successes blank the inputs. A failure keeps the inputs and shows the mapped message. All issue no further call and end the loading phase |
| LoginForm.Handle | src/features/auth/Login.js:39-78 | Ignored events change nothing. Edits set one input and never touch the message. Toggling the mode flips it and clears the message. Only an accepted persist toggle changes the persist flag |
| LoginForm.ClearOnFieldChange | src/features/auth/Login.js:34-37 | The effect changes only the message. It clears the message when an input value differs from the previous render, and changes nothing when none does |
| LoginForm.Step | src/features/auth/Login.js:35-84 | Any change of an input value leaves the message empty, and only an edit or a completion changes values. A call is issued exactly on an idle submit that passes the guard. A token is published exactly on a login success, always followed by the redirect. Consistency of the in-flight call is preserved, and a new call starts only when none is in flight |
| LoginForm.Run | src/features/auth/Login.js:82-84 | Over any sequence of events, consistency is preserved and publish/redirect pairs are kept. Calls issued never exceed the completions received plus the free slot at the start |
| LoginProperties.SignupMismatchRejected | src/features/auth/Login.js:47-50 | In sign-up mode, mismatched passwords on submit set the mismatch message. No call is made; mode, inputs and phase are unchanged |
| LoginProperties.LoginSubmitIgnoresConfirmation | src/features/auth/Login.js:47-54 | In login mode, a submit issues exactly one login call with the current username and password. Changing the confirmation does not change the call |
| LoginProperties.SignupSubmitRegisters | src/features/auth/Login.js:47-58 | In sign-up mode with matching passwords, a submit issues exactly one register call with the current username and password |
| LoginProperties.FailureMessageSurvives | src/features/auth/Login.js:67-70 | After a failed call the form is idle with the mapped message. The inputs are unchanged, so the value-keyed effect does not clear it |
| LoginProperties.UnauthorizedFailureMessage | src/features/auth/Login.js:69 | A 401 completion always leaves "Invalid username or password" on screen |
| LoginProperties.LoginSuccess | src/features/auth/Login.js:54-56 | A login success emits exactly [publish the returned token, navigate to /dash]. The inputs become blank and the form is idle, with mode and persist unchanged |
| LoginProperties.SignupSuccessHandler | src/features/auth/Login.js:58-66 | At handler level, a sign-up success sets the notice, switches to login mode and blanks the inputs. It emits no token and no navigation |
| LoginProperties.SignupSuccessAfterEffect | src/features/auth/Login.js:35-37 | After the effect, the notice survives exactly when the inputs were already blank. Otherwise the message is empty. Mode is login and nothing is emitted |
| LoginProperties.SignupNoticeOverwritten | src/features/auth/Login.js:58-66 | A sign-up that passes the required-field validation issues one register call. Its success ends in login mode with blank inputs and no message |
| LoginProperties.ToggleModeFlips | src/features/auth/Login.js:39-42 | Toggling the mode flips it, clears the message and leaves inputs and persist untouched |
| LoginProperties.ToggleModeTwice | src/features/auth/Login.js:39-42 | Toggling twice restores the original state except that the message is empty |
| LoginProperties.TogglePersistOnly | src/features/auth/Login.js:78 | Toggling "Trust This Device" flips the persist flag and nothing else |
| LoginProperties.EditHandlerKeepsError | src/features/auth/Login.js:75-77 | At handler level, an edit sets exactly the edited input and keeps the message |
| LoginProperties.EditClearsErrorIffChanged | src/features/auth/Login.js:35-37 | After the effect, an edit that changes the value clears the message. An edit that writes the same value leaves the whole state unchanged |
| LoginProperties.ConfirmationNotEditableInLoginMode | src/features/auth/Login.js:125-138 | The confirmation input exists only in sign-up mode, so in login mode an edit to it changes nothing |
| LoginProperties.LoadingIgnoresFormEvents | src/features/auth/Login.js:82-84 | While a call is in flight, every event other than its completion leaves the state unchanged and emits nothing |
| LoginProperties.ReachableConsistent | src/features/auth/Login.js:44-84 | From the first render, after any events, an in-flight call always matches the frozen inputs and mode. A register call is only in flight for matching passwords |
| LoginProperties.CallsBoundedByCompletions | src/features/auth/Login.js:82-84 | From an idle form, the calls issued never exceed the completion events dispatched plus one (ignored completions are counted too) |
| LoginProperties.NoCallBeforeCompletion | src/features/auth/Login.js:82-84 | While a call is in flight, no event sequence without a completion issues another call |
| LoginProperties.LoginRoundTrip | src/features/auth/Login.js:52-66 | Submit then success in login mode emits the login call, the token and one redirect, in that order. It ends idle with blank inputs |

## Left out

- Rendering: headings, labels, button texts and CSS class selection are presentation only.
- Focus moves on mount and after a failure (lines 29-32 and 70) are DOM side effects.
- The API mutations, the session store's `setCredentials` and the router are foreign library calls. They appear only as emitted `Effect` values and as the `Complete` outcome.
- Title setting and the storage behind the persist flag are browser I/O. The stored flag is a parameter of `Initial`, and writing it back is not modelled.
- The browser's validation of the `required` inputs is not a guard in `Step`. `LoginProperties.RequiredFilled` models it as a hypothesis where it matters.
- Only numeric HTTP statuses are modelled. The client library's string statuses (fetch, parsing and timeout errors) are `None` and never equal 401.
- Only string server messages are modelled. A non-string truthy `data.message` would be shown as is by the component.
- A login response without an access token is not modelled: the token is always a string.
- Asynchronous timing and render batching are not modelled beyond the two phases, submit then completion.
- State updates after the redirect, when the form may already be unmounted, are applied as the code writes them.
- `src/components/Public.js` is a static landing page with one link and no state, so it is not part of this model.
