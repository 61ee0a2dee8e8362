# Reminders app: session, sync and notification model

This project models the logic inside `app.jsx`. That file is a single React
component over Firebase. It lets a user sign in by phone, keep a personal list
of timed reminders in a remote collection, and get a browser notification when
a reminder is due. The model covers three parts:

- **Session and phone sign-in** (`session.dfy`, module `AuthSession`). The
  component fields `isAuthenticated`, `userId`, `otpSent` and
  `confirmationResult` form a `SessionState`. A pure transition function
  `Next` covers the three things that change them: an identity push, the
  outcome of an OTP request, and the verdict on an OTP confirmation. Lemmas
  cover runs of several events: rejected codes change nothing, a retry after
  rejections succeeds with the same handle, and a full phone sign-in
  scenario works as expected.
- **Reminders snapshot and writes** (`sync.dfy`, module `ReminderSync`). This
  part defines the record a write sends, the documents a push delivers, and
  the `{ id, ...data }` map into `reminders`. The remote collection is a map
  from document id to record, and a listener sees it filtered by `userId`.
  Lemmas prove create→push (the new id appears exactly once, with the fields
  that were written), delete→push (the id is gone and nothing else changes)
  and owner scoping (every reminder a listener on `uid` receives belongs to
  `uid`).
- **Notification scheduling** (`scheduler.dfy`, module `Scheduler`). This
  part turns a target time and "now" into a deferred `Reminder` action or an
  immediate `Reminder (Missed)` one. Either action is delivered only if the
  browser has notifications, the permission is `granted` and the
  notification can be constructed when it fires. The timer's delay is
  converted as `setTimeout` converts it. It also covers the notice shown
  when the user asks for permission.

`app.dfy` (module `ReminderApp`) holds the component as the class `App`. It
has the component's state fields plus `listener`, which is the owner of the
live snapshot listener. Each handler is a method. Its `ensures` ties the new
session to `Next(old(Session()), event)` and the new snapshot to
`ToReminders`. It also states the notices shown and the effects returned: the
record written, the notification scheduled, and the number or code sent. The
remote collection is the class `RemoteCollection`, with one `docs` map.

External calls become parameters. These are the identity push, the OTP
handle or failure, the confirmation verdict, write and delete success, the
store-assigned document id, the parsed target time, the clock, the
browser's notification capability and the permission answer.

The model follows the code in these places, which a reader might not expect:

- A successful verification sets `isAuthenticated` and clears `otpSent`. It
  does not discard `confirmationResult`, and it does not set `userId`. Until
  the identity push arrives, the session is authenticated with no user id,
  so no listener is set up (`PhoneSignIn`). A reminder written in that
  window carries a null `userId`, which no owner's query ever shows
  (`InsertView`).
- An identity change tears down the listener, but `reminders` is not
  cleared. The previous owner's reminders stay until the new listener's
  first push (`IdentitySwitchKeepsSnapshot`).
- The snapshot error callback only logs. No notice is shown and the last
  snapshot is kept. The store ends a listener after its error callback, so
  `reminders` stays frozen until `isAuthenticated` or `userId` changes and
  a new listener is set up.
- A timer delay is a signed 32-bit value, and a negative one counts as 0.
  A reminder 2^31 ms (about 24.8 days) or more ahead is therefore shown
  early: at once up to 2^32 ms, and 2^32 ms early beyond that
  (`FarTargetFiresEarly`).
- The immediate "missed" attempt runs inside the add handler's `try`. On a
  browser without `Notification`, or one whose notification constructor
  throws, that attempt throws after the record is stored. The user then sees
  "Failed to add reminder." and the form is kept.
- `handleSendOtp` has no guard on the session state.
- When the permission prompt is dismissed (`default`), the "denied" notice
  is shown.
- An unparseable time makes the delay NaN. The `delta > 0` test is then
  false, so the reminder is delivered at once as "missed" (`Schedule` with
  `target == None`).

## Model

| member | source | states |
|---|---|---|
| `Scheduler.Schedule` | app.jsx:154-168 | the action is deferred exactly when the parsed target lies strictly after now; its delay is then positive and lands on the target; the label is kept |
| `Scheduler.TimerDelay` | app.jsx:160-167 | the delay setTimeout waits is below 2^31; it equals the requested delay when that is below 2^31, and otherwise is 0 or the requested delay reduced modulo 2^32 |
| `Scheduler.Fire` | app.jsx:160-176 | an attempt throws when the browser has no Notification, or when permission is granted but the constructor fails; it shows a notification exactly when the browser has one, permission is granted and the constructor works; the notification is titled "Reminder" with "Don't forget: <label>" for a deferred action, "Reminder (Missed)" with "You missed the reminder: <label>" for an immediate one |
| `Scheduler.ThrowsAtOnce` | app.jsx:168-176 | the handler itself sees an exception only from an immediate attempt, on a browser without Notification or with granted permission and a failing constructor |
| `Scheduler.Deliver` | app.jsx:159-176 | an arranged action yields one delivery when the browser can display it at fire time and none otherwise, at now plus the timer's actual delay for a deferred action and at now for an immediate one |
| `Scheduler.ScheduleOutcome` | app.jsx:154-177 | scheduling a reminder yields exactly one delivery when the browser can display it and none otherwise: the active one for a future target, at the target time when that is less than 2^31 ms ahead; the missed one immediately when the target is not in the future or does not parse |
| `Scheduler.FarTargetFiresEarly` | app.jsx:157-167 | a target between 2^31 and 2^32 ms ahead shows the active notification at once; one between 2^32 and 2^32 + 2^31 ms ahead shows it 2^32 ms before the target |
| `Scheduler.PermissionNotice` | app.jsx:140-152 | without browser support the notice says so; with it, the notice is the granted one exactly when the answer is granted, otherwise the denied one |
| `ReminderSync.ToReminders` | app.jsx:76-79 | one reminder per pushed document, in order, each tagged with its document id and carrying exactly that document's data |
| `ReminderSync.Insert` | app.jsx:189-195 | a stored add adds exactly the fresh id with the written record and keeps every other document |
| `ReminderSync.Remove` | app.jsx:210 | a delete removes exactly that id and keeps every other document unchanged |
| `ReminderSync.Query` | app.jsx:70-72 | a listener for uid sees exactly the stored documents whose userId is uid, with their stored data |
| `ReminderSync.CountIdOfPush` | app.jsx:75-80 | in a push with distinct ids, an id occurs in the resulting reminders once if the push holds it and never otherwise |
| `ReminderSync.OwnerScoped` | app.jsx:68-80 | every reminder received by a listener on uid has userId uid |
| `ReminderSync.InsertView` | app.jsx:189-195 | a written record owned by uid adds exactly that document to uid's view; a record owned by anyone else or by no one leaves it unchanged |
| `ReminderSync.RemoveView` | app.jsx:208-211 | a delete removes exactly that id from every owner's view |
| `ReminderSync.CreateThenPush` | app.jsx:188-195 | after a successful write for uid, the next push holds the new id exactly once with the written fields, and otherwise what the listener saw before |
| `ReminderSync.DeleteThenPush` | app.jsx:208-211 | after a successful delete, the next push no longer holds the id and holds every other document seen before, unchanged |
| `AuthSession.Next` | app.jsx:54-137 | an identity push sets isAuthenticated to whether a user is present and userId to it, nothing else; a successful OTP request stores the handle and sets otpSent, a failed one changes nothing; confirming with no handle or a rejected code changes nothing; an accepted code sets isAuthenticated and clears otpSent, keeping userId and the handle; consistency is preserved |
| `AuthSession.Notices` | app.jsx:110-137 | an OTP request shows "Sending OTP..." then the success or error notice; a confirmation shows nothing without a handle, else the verified or invalid-code notice; an identity push shows nothing |
| `AuthSession.SubscriptionFor` | app.jsx:67-72 | a listener exists exactly when the session is authenticated with a user id, and it is filtered to that id |
| `AuthSession.RunConsistent` | app.jsx:54-137 | in every state reachable by handler runs, a signed-out session has no user id |
| `AuthSession.RejectedCodesChangeNothing` | app.jsx:128-136 | any number of rejected codes leaves the whole session unchanged, so the same handle stays usable |
| `AuthSession.RetryThenAccept` | app.jsx:125-137 | after any number of rejected codes, an accepted one authenticates with the same handle and clears otpSent, leaving userId to the identity push |
| `AuthSession.PhoneSignIn` | app.jsx:110-137 | sent code, wrong code, right code, identity push: signed out after the wrong code with an invalid-code notice, authenticated without a listener after the right one, authenticated with the user id and its listener after the push |
| `ReminderApp.App.constructor` | app.jsx:33-42 | the initial field values: signed out, no user, no reminders, empty form, no OTP state, no popup, no listener |
| `ReminderApp.App.ShowCustomNotification` | app.jsx:45-49 | the popup shows the given message |
| `ReminderApp.App.HidePopup` | app.jsx:48 | the popup timer hides the popup |
| `ReminderApp.App.SyncListener` | app.jsx:67-87 | the old listener is torn down, and the new one is the one the guard calls for and has not failed |
| `ReminderApp.App.OnAuthStateChanged` | app.jsx:54-62 | the session moves by an identity push; the listener is rebuilt following the guard only if isAuthenticated or userId changed, and is otherwise kept, failed or not; nothing else (not even reminders) changes |
| `ReminderApp.App.OnSnapshot` | app.jsx:75-83 | a document push from the live, unfailed listener replaces reminders wholesale by its tagged documents; an error push from it keeps reminders and ends the listener; pushes from a torn-down or failed listener change nothing |
| `ReminderApp.App.SetPhoneNumber` | app.jsx:235 | the phone input sets phoneNumber |
| `ReminderApp.App.SetOtp` | app.jsx:249 | the code input sets otp |
| `ReminderApp.App.SetNewReminder` | app.jsx:274-289 | the form inputs set newReminder |
| `ReminderApp.App.HandleSendOtp` | app.jsx:110-123 | the request goes to phoneNumber; the session moves by the request outcome; the notices shown are "Sending OTP..." then success or error, and the popup shows the last |
| `ReminderApp.App.HandleVerifyOtp` | app.jsx:125-137 | without a pending handle nothing at all changes and nothing is shown; otherwise the current otp is submitted, the session moves by the verdict and the listener follows the guard, being kept as it was when already authenticated |
| `ReminderApp.App.RequestNotificationPermission` | app.jsx:140-152 | the popup shows the permission notice for the browser support and the answer |
| `ReminderApp.FormIsComplete` | app.jsx:182 | a form passes validation exactly when both its label and its time are non-empty; the reset form never passes |
| `ReminderApp.NewRecord` | app.jsx:189-195 | the written record carries the current userId, the three form fields unchanged and the server-timestamp sentinel |
| `ReminderApp.App.HandleAddReminder` | app.jsx:180-206 | an incomplete form writes nothing, keeps the form and shows the validation notice; a complete one writes userId plus the three form fields; on a stored write the store gains that record and a notification is scheduled exactly when requested; the form resets with the success notice unless the write failed or an immediate attempt threw, in which case the form is kept and the failure notice shows; a failed write leaves the store unchanged and schedules nothing |
| `ReminderApp.App.HandleDeleteReminder` | app.jsx:208-216 | on success the store loses the id, on failure it is unchanged; the matching notice is shown |
| `ReminderApp.RemoteCollection.AddDoc` | app.jsx:189-195 | a successful add inserts the record under the fresh id; a failed one changes nothing |
| `ReminderApp.RemoteCollection.DeleteDoc` | app.jsx:210 | a successful delete removes the id; a failed one changes nothing |
| `ReminderApp.IdentitySwitchKeepsSnapshot` | app.jsx:54-87 | after alice's reminder is pushed and the identity switches to bob, bob's listener is live while alice's reminder is still listed |
| `ReminderApp.AddReminderScenario` | app.jsx:180-206 | signed in as alice, adding "Call mom" five seconds ahead with notification gives a push listing exactly that reminder owned by alice, and with permission granted exactly one active notification naming it at the target time |

## Left out

- Firebase configuration, initialisation and the fire-and-forget startup sign-in (app.jsx:6-30): library calls and environment globals.
- reCAPTCHA construction and creation of its DOM container (app.jsx:90-108): browser plumbing behind an opaque library. The OTP request's outcome is a parameter instead.
- All rendering (app.jsx:218-346). The inputs' change handlers are kept as setter methods.
- Date parsing and formatting: times are integer milliseconds supplied by the caller, with `None` for a time that does not parse.
- Real timers and notification delivery: `setTimeout` and `new Notification` become returned values (`ScheduledAction`, `Delivery`), and the icon URLs are dropped. An exception thrown inside a timer callback only means that nothing is delivered. The three-second popup timer is the `HidePopup` method.
- Scheduled notifications are never cancelled when their reminder is deleted. The model reflects this because `ScheduledAction` is independent of the store, but no lemma states it.
- Firestore path strings, query objects and the value of `serverTimestamp()`: `createdAt` is an opaque sentinel that is stored as written.
- Console logging of errors.
- Async interleaving of pushes with awaited writes, and React's effect scheduling: each handler and the effect it triggers run as one step.
