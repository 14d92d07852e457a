# Login-state store and support-form field insertion

This project models the two pieces of logic in a small demo that configures an
embeddable AI chat widget with a "create support ticket" form:

- **The simulated login state** (`src/fake-auth.ts`). A module-level
  `isLoggedIn` flag and an ordered `listeners` array. `toggleLogin` flips the
  flag and then calls every listener, in registration order, with the new
  value. `getIsLoggedIn` reads the flag. `onLoginChange` pushes a callback
  and returns an unsubscribe closure, which removes the first remaining
  occurrence of that callback (`indexOf` + `splice`).
  Module `FakeAuth` in `fake_auth.dfy` models this as the class `LoginStore`,
  with the fields `isLoggedIn` and `listeners` and a ghost log `notified` of
  every callback invocation. Its methods are proved against specification
  functions over a `Store` value: `Toggled`, `ToggleNotifications`,
  `Subscribed` and `Unsubscribed`, built from `Broadcast`, `IndexOf` and
  `RemoveFirst`. The lemmas state what those functions promise. Callbacks are
  opaque identities (`CallbackId`). The unsubscribe closure is the value
  `Subscription(callback)` passed to `LoginStore.Unsubscribe`, since the
  closure captures nothing else.
- **The support form** (`src/main.ts`). `initializeForUser` copies the
  form's field list and splices a required `subscription` select field in
  right after the first field named `email`. `onSubmit` builds the ticket
  payload from the submitted values. Module `SupportForm` in
  `support_form.dfy` models both as pure functions: `FindIndex` (for
  `findIndex`), `Insert` (for `splice(k, 0, x)`), `WithSubscriptionField` and
  `BuildPayload`. `label` is a Dafny keyword, so the field and item labels are
  called `caption`.

The methods `OrderAndUnsubscribeScenario`, `DuplicateRegistrationScenario` and
`EndToEndScenario` are clients of `LoginStore`. They check the store's
expected behaviour from the method contracts alone:

- listeners A, B, C are called in that order;
- after B unsubscribes, only A and C are called;
- a callback registered twice is called twice;
- one observer receives `[true, false]` over two toggles.

One might expect each unsubscribe function to revoke exactly its own
registration, and to do nothing when called again. The code differs: each call
runs `indexOf` again. So when a callback is registered twice, calling the same
closure twice removes both registrations. The closure returned for the second
registration also removes the first one, because it takes the first
occurrence. The model follows the code. `RepeatedUnsubscribe` and
`DuplicateRegistrationScenario` state this behaviour.

## Model

| member | source | states |
|---|---|---|
| `FakeAuth.LoginStore.constructor` | src/fake-auth.ts:2-3 | the store starts logged out, with no listeners and nothing notified |
| `FakeAuth.LoginStore.ToggleLogin` | src/fake-auth.ts:5-10 | the new state is `Toggled` of the old one; the calls made, appended to the log, are `ToggleNotifications` of the old state |
| `FakeAuth.LoginStore.GetIsLoggedIn` | src/fake-auth.ts:53-55 | returns the current flag and changes nothing |
| `FakeAuth.LoginStore.OnLoginChange` | src/fake-auth.ts:58-65 | the callback is pushed at the end of the list; the flag and log are unchanged; the returned handle is for that callback |
| `FakeAuth.LoginStore.Unsubscribe` | src/fake-auth.ts:61-64 | the list becomes `RemoveFirst` of the old list; the flag and log are unchanged |
| `FakeAuth.Broadcast` | src/fake-auth.ts:9 | one call per listener entry, in list order, each with the given value |
| `FakeAuth.BroadcastReachesEachRegistration` | src/fake-auth.ts:9 | a callback registered k times receives the value exactly k times |
| `FakeAuth.ToggleNotifiesEveryListenerOnce` | src/fake-auth.ts:5-10 | a toggle negates the flag and keeps the list; entry i is called exactly once, at position i, with the new flag |
| `FakeAuth.ToggleTwiceRestores` | src/fake-auth.ts:5-10 | two toggles restore the state; each callback hears the negated flag once per registration, then the original flag once per registration |
| `FakeAuth.IndexOf` | src/fake-auth.ts:62 | returns -1 exactly when the callback is absent; otherwise a position holding it with no earlier occurrence |
| `FakeAuth.IndexOfIsFirstOccurrence` | src/fake-auth.ts:62 | the first occurrence is the only position `indexOf` can return |
| `FakeAuth.RemoveFirst` | src/fake-auth.ts:61-64 | the list shrinks by one when the callback is present; otherwise the list is unchanged |
| `FakeAuth.RemoveFirstIsDropFirst` | src/fake-auth.ts:62-63 | `indexOf` + `splice` equals the reference "drop the first occurrence, keep all others in order" |
| `FakeAuth.RemoveFirstTakesOneRegistration` | src/fake-auth.ts:62-63 | one call removes one registration of its callback, if one is left, and no registration of any other callback |
| `FakeAuth.RegisteredIffListed` | src/fake-auth.ts:62 | a callback has a registration exactly when it is in the list |
| `FakeAuth.SubscribeThenUnsubscribe` | src/fake-auth.ts:58-64 | unsubscribing right after subscribing restores the state when the callback was new; otherwise it removes the earlier registration and keeps the new one at the end |
| `FakeAuth.RepeatedUnsubscribe` | src/fake-auth.ts:61-64 | n calls of one closure remove min(n, k) of the callback's k registrations |
| `FakeAuth.RepeatedUnsubscribeSparesOthers` | src/fake-auth.ts:61-64 | repeated calls of one closure never remove a registration of another callback |
| `FakeAuth.RepeatedUnsubscribeLength` | src/fake-auth.ts:61-64 | after n calls the list has lost at most n entries and gained none |
| `SupportForm.FindIndex` | src/main.ts:184 | returns -1 exactly when no field has the name; otherwise the first field with that name |
| `SupportForm.FindIndexIsFirstMatch` | src/main.ts:184 | the first matching position, or -1 when nothing matches, is what `findIndex` returns |
| `SupportForm.Insert` | src/main.ts:185 | the list grows by one; the new element is at k; earlier elements stay; later elements move one place right; the elements are those of the list plus the new one |
| `SupportForm.InsertThenRemove` | src/main.ts:185 | taking the inserted element out gives back the original list |
| `SupportForm.ShippedFields` | src/main.ts:80-105 | the form's own fields are name, email, include_chat_session and description, in that order; all but include_chat_session are required |
| `SupportForm.SubscriptionField` | src/main.ts:174-180 | a required field named `subscription` whose select items are exactly the user's subscriptions |
| `SupportForm.WithSubscriptionField` | src/main.ts:183-185 | the copy has one more field, and holds exactly the original fields plus the subscription field; its position is stated by `SubscriptionFieldPlacement` |
| `SupportForm.SubscriptionFieldPlacement` | src/main.ts:174-185 | the required `subscription` select with the given items goes right after the first email field, or at index 0 without one; the fields up to it are unchanged and the later fields follow shifted by one |
| `SupportForm.SubscriptionFieldIsOnlyAddition` | src/main.ts:183-185 | removing the inserted field gives back the form's field list unchanged |
| `SupportForm.ShippedFormOrder` | src/main.ts:80-105 | with the form's own fields, the subscription field is at index 2; the names are name, email, subscription, include_chat_session, description |
| `SupportForm.BuildPayload` | src/main.ts:44-50 | each payload field is the submitted value of the same name and `conversation_id` is the conversation's id; what is dropped is stated by `PayloadForwardsAllButChatSession`, the missing-input cases by `PayloadOfMissingInputs` |
| `SupportForm.PayloadForwardsAllButChatSession` | src/main.ts:44-50 | two submissions give equal payloads exactly when they agree on the conversation id and on every value except `include_chat_session`; this states only what is dropped, and the field-by-field mapping is `BuildPayload`'s contract |
| `SupportForm.PayloadOfMissingInputs` | src/main.ts:44-50 | without values, every value field of the payload is undefined; the conversation id is undefined exactly when there is no conversation |
| `SupportForm.ExamplePayload` | src/main.ts:20-59 | the documented example values and conversation produce the documented payload |

## Left out

- `updateLoginUI`, `createLoginToggle` and the `document.readyState` bootstrap (src/fake-auth.ts:7, 12-50): they only change the page. In `ToggleLogin` the `updateLoginUI` call does nothing to the flag or the list.
- Callbacks are not run. Each invocation is recorded in the ghost log instead. A listener that throws, or that subscribes or unsubscribes during notification, is not modelled: that depends on foreign code.
- FakeAuth.LoginStore.ToggleLogin: the ghost log receives the calls when the loop ends, not one at a time. The order and the values are the same.
- The chat-widget SDK (`window.Inkeep.ChatButton`, `chatButton.update`, the `{ ...supportForm, fields }` form passed to it) and its configuration types: these are external library calls.
- `fetchUserData`, the `setTimeout` promises, the commented-out `fetch` and the `response.ok` error path (src/main.ts:61-75, 143-167): these are I/O and timers. The subscriptions are a parameter of `WithSubscriptionField`.
- Console logging, the CSS import, the API key and the configuration literals other than the form's field list.
- SupportForm.Insert: models `splice` only for a start inside the list. `findIndex(...) + 1` is always between 0 and the length, so `splice`'s clamping of out-of-range starts never applies here.
- Aliasing: field lists are Dafny sequences, which are values. That the copy `[...supportForm.fields]` leaves the form's own array untouched is therefore automatic. It is stated as `SubscriptionFieldIsOnlyAddition` rather than as an in-place update.
- Values whose JavaScript type is not fixed (`values`, `conversation`) are modelled as records of optional strings and an optional boolean.
