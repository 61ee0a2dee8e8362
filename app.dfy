/** The reminder application component: its state fields and the handlers
    that update them. Every call into the identity provider, the document
    store and the browser is replaced by its outcome, passed in as a
    parameter; what a handler asks the outside world to do (a document write,
    a notification timer) comes back as a result. */
module ReminderApp {
  import opened Types
  import opened AuthSession
  import opened ReminderSync
  import opened Scheduler

  const ValidationNotice := "Please enter both a label and a time."
  const AddedNotice := "Reminder added successfully!"
  const AddFailedNotice := "Failed to add reminder."
  const DeletedNotice := "Reminder deleted."
  const DeleteFailedNotice := "Failed to delete reminder."

  /** The add-reminder form (`newReminder`). */
  datatype ReminderForm = ReminderForm(labelText: string, time: string, receivePhoneNotification: bool)

  const EmptyForm := ReminderForm("", "", false)

  /** `!newReminder.label || !newReminder.time` rejects the form: the empty
      string is the only falsy string. */
  function FormIsComplete(f: ReminderForm): (ok: bool)
    ensures ok <==> |f.labelText| > 0 && |f.time| > 0
    ensures f == EmptyForm ==> !ok
  {
    f.labelText != "" && f.time != ""
  }

  /** The document `handleAddReminder` writes for the current user. */
  function NewRecord(userId: Option<Uid>, f: ReminderForm): (rec: ReminderRecord)
    ensures rec.userId == userId
    ensures ReminderForm(rec.labelText, rec.time, rec.receivePhoneNotification) == f
    ensures rec.createdAt == ServerTimestamp
  {
    ReminderRecord(userId, f.labelText, f.time, f.receivePhoneNotification, ServerTimestamp)
  }

  /** The remote reminders collection. Whether a write reaches it is decided
      outside the model and passed in as `ok`; the id of a new document is
      chosen by the store, so it is passed in too. */
  class RemoteCollection {
    var docs: Store

    constructor (initial: Store)
      ensures docs == initial
    {
      docs := initial;
    }

    /** `addDoc`. */
    method AddDoc(rec: ReminderRecord, newId: DocId, ok: bool)
      requires newId !in docs
      modifies this
      ensures docs == if ok then Insert(old(docs), newId, rec) else old(docs)
    {
      if ok {
        docs := docs[newId := rec];
      }
    }

    /** `deleteDoc`. */
    method DeleteDoc(id: DocId, ok: bool)
      modifies this
      ensures docs == if ok then Remove(old(docs), id) else old(docs)
    {
      if ok {
        docs := docs - {id};
      }
    }
  }

  class App {
    var isAuthenticated: bool
    var userId: Option<Uid>
    var reminders: seq<Reminder>
    var newReminder: ReminderForm
    var otpSent: bool
    var phoneNumber: string
    var otp: string
    var confirmationResult: Option<ConfirmationResult>
    var showNotificationPopup: bool
    var notificationMessage: string
    /** The owner the reminders listener is filtered to, if one is set up. */
    var listener: Option<Uid>
    /** The listener has reported an error; the store delivers nothing more on it. */
    var listenerFailed: bool

    function Session(): SessionState
      reads this
    {
      SessionState(isAuthenticated, userId, otpSent, confirmationResult)
    }

    /** The session fields agree, and the listener is the one the
        subscription guard calls for. */
    ghost predicate Valid()
      reads this
    {
      Consistent(Session()) && listener == SubscriptionFor(Session())
    }

    constructor ()
      ensures Valid()
      ensures Session() == Initial && listener.None? && !listenerFailed
      ensures reminders == [] && newReminder == EmptyForm
      ensures phoneNumber == "" && otp == ""
      ensures !showNotificationPopup && notificationMessage == ""
    {
      isAuthenticated := false;
      userId := None;
      reminders := [];
      newReminder := EmptyForm;
      otpSent := false;
      phoneNumber := "";
      otp := "";
      confirmationResult := None;
      showNotificationPopup := false;
      notificationMessage := "";
      listener := None;
      listenerFailed := false;
    }

    /** `showCustomNotification`: the popup shows `message` until its timer
        calls HidePopup. */
    method ShowCustomNotification(message: string)
      modifies this`notificationMessage, this`showNotificationPopup
      ensures notificationMessage == message && showNotificationPopup
    {
      notificationMessage := message;
      showNotificationPopup := true;
    }

    /** The popup timer firing three seconds later. */
    method HidePopup()
      modifies this`showNotificationPopup
      ensures !showNotificationPopup
    {
      showNotificationPopup := false;
    }

    /** The reminders effect, re-run whenever `isAuthenticated` or `userId`
        changes: the old listener is torn down, and a new one filtered to
        `userId` is set up only when the guard holds. */
    method SyncListener()
      modifies this`listener, this`listenerFailed
      ensures listener == SubscriptionFor(Session()) && !listenerFailed
    {
      listener := None;
      listenerFailed := false;
      if isAuthenticated && userId.Some? {
        listener := userId;
      }
    }

    /** The identity provider's `onAuthStateChanged` callback. The effect
        re-runs only if `isAuthenticated` or `userId` actually changed. The
        reminders are left as they are until the next push. */
    method OnAuthStateChanged(user: Option<Uid>)
      requires Valid()
      modifies this`isAuthenticated, this`userId, this`listener, this`listenerFailed
      ensures Valid()
      ensures Session() == Next(old(Session()), IdentityPushed(user))
      ensures old(isAuthenticated) == isAuthenticated && old(userId) == userId ==>
        listener == old(listener) && listenerFailed == old(listenerFailed)
      ensures old(isAuthenticated) != isAuthenticated || old(userId) != userId ==> !listenerFailed
    {
      var changed := isAuthenticated != user.Some? || userId != user;
      if user.Some? {
        isAuthenticated := true;
        userId := user;
      } else {
        isAuthenticated := false;
        userId := None;
      }
      if changed {
        SyncListener();
      }
    }

    /** A push from the listener filtered to `owner`: its documents (`Some`)
        or its error callback (`None`), which only logs and ends the listener.
        A listener that was torn down or has failed delivers nothing. */
    method OnSnapshot(owner: Uid, push: Option<seq<Doc>>)
      modifies this`reminders, this`listenerFailed
      ensures var live := listener == Some(owner) && !old(listenerFailed);
        reminders == (if live && push.Some? then ToReminders(push.value) else old(reminders)) &&
        listenerFailed == (old(listenerFailed) || (live && push.None?))
    {
      if listener == Some(owner) && !listenerFailed {
        match push
        case Some(docs) =>
          reminders := ToReminders(docs);
        case None =>
          listenerFailed := true;
      }
    }

    /** The phone-number input's change handler. */
    method SetPhoneNumber(text: string)
      modifies this`phoneNumber
      ensures phoneNumber == text
    {
      phoneNumber := text;
    }

    /** The code input's change handler. */
    method SetOtp(text: string)
      modifies this`otp
      ensures otp == text
    {
      otp := text;
    }

    /** The add-reminder inputs' change handlers. */
    method SetNewReminder(form: ReminderForm)
      modifies this`newReminder
      ensures newReminder == form
    {
      newReminder := form;
    }

    /** `handleSendOtp`: `request` is the number the OTP request is sent to,
        `result` its outcome (the confirmation handle, or `None` when it
        threw). */
    method HandleSendOtp(result: Option<ConfirmationResult>) returns (request: string, shown: seq<string>)
      requires Valid()
      modifies this`confirmationResult, this`otpSent, this`notificationMessage, this`showNotificationPopup
      ensures Valid()
      ensures request == phoneNumber
      ensures Session() == Next(old(Session()), OtpRequestDone(result))
      ensures shown == Notices(old(Session()), OtpRequestDone(result))
      ensures notificationMessage == shown[|shown| - 1] && showNotificationPopup
    {
      ShowCustomNotification(SendingNotice);
      request := phoneNumber;
      if result.Some? {
        confirmationResult := result;
        otpSent := true;
        ShowCustomNotification(OtpSentNotice);
        shown := [SendingNotice, OtpSentNotice];
      } else {
        ShowCustomNotification(OtpErrorNotice);
        shown := [SendingNotice, OtpErrorNotice];
      }
    }

    /** `handleVerifyOtp`: `code` is the code passed to the confirmation
        (`None` when there is no pending handle and nothing happens),
        `confirmed` whether the provider accepted it. */
    method HandleVerifyOtp(confirmed: bool) returns (code: Option<string>, shown: seq<string>)
      requires Valid()
      modifies this`isAuthenticated, this`otpSent, this`listener, this`listenerFailed
      modifies this`notificationMessage, this`showNotificationPopup
      ensures Valid()
      ensures code == if old(confirmationResult).Some? then Some(otp) else None
      ensures Session() == Next(old(Session()), OtpConfirmDone(confirmed))
      ensures shown == Notices(old(Session()), OtpConfirmDone(confirmed))
      ensures shown == [] ==> unchanged(this)
      ensures shown != [] ==> notificationMessage == shown[0] && showNotificationPopup
      ensures old(isAuthenticated) ==> listener == old(listener) && listenerFailed == old(listenerFailed)
    {
      if confirmationResult.None? {
        return None, [];
      }
      code := Some(otp);
      if confirmed {
        ShowCustomNotification(VerifiedNotice);
        var changed := !isAuthenticated;
        isAuthenticated := true;
        otpSent := false;
        if changed {
          SyncListener();
        }
        shown := [VerifiedNotice];
      } else {
        ShowCustomNotification(InvalidOtpNotice);
        shown := [InvalidOtpNotice];
      }
    }

    /** `requestNotificationPermission`: `supported` is whether the browser
        has notifications, `answer` the user's reply to the prompt. */
    method RequestNotificationPermission(supported: bool, answer: Permission) returns (shown: seq<string>)
      modifies this`notificationMessage, this`showNotificationPopup
      ensures shown == [PermissionNotice(supported, answer)]
      ensures notificationMessage == shown[0] && showNotificationPopup
    {
      var m := PermissionNotice(supported, answer);
      ShowCustomNotification(m);
      shown := [m];
    }

    /** `handleAddReminder`. The write goes to `db`, which gives it the id
        `newId` and reports `writeOk`; `target` is the form's time parsed to
        milliseconds (`None` when it does not parse), `now` the clock and
        `platform` the browser's notification capability at that moment.
        `write` is the record sent, `scheduled` the notification arranged or
        attempted. An attempt made at once that throws lands in the same
        `catch` as a failed write, after the record is stored. */
    method HandleAddReminder(db: RemoteCollection, newId: DocId, writeOk: bool, target: Option<int>, now: int, platform: Platform)
      returns (write: Option<ReminderRecord>, scheduled: Option<ScheduledAction>, shown: seq<string>)
      requires newId !in db.docs
      modifies db, this`newReminder, this`notificationMessage, this`showNotificationPopup
      ensures !FormIsComplete(old(newReminder)) ==>
        write.None? && scheduled.None? && db.docs == old(db.docs) &&
        newReminder == old(newReminder) && shown == [ValidationNotice]
      ensures scheduled.Some? <==>
        FormIsComplete(old(newReminder)) && writeOk && old(newReminder).receivePhoneNotification
      ensures scheduled.Some? ==> scheduled.value == Schedule(old(newReminder).labelText, target, now)
      ensures FormIsComplete(old(newReminder)) ==>
        var failed := !writeOk || (scheduled.Some? && ThrowsAtOnce(scheduled.value, platform));
        write == Some(NewRecord(userId, old(newReminder))) &&
        db.docs == (if writeOk then Insert(old(db.docs), newId, write.value) else old(db.docs)) &&
        newReminder == (if failed then old(newReminder) else EmptyForm) &&
        shown == [if failed then AddFailedNotice else AddedNotice]
      ensures notificationMessage == shown[0] && showNotificationPopup
    {
      if !FormIsComplete(newReminder) {
        ShowCustomNotification(ValidationNotice);
        return None, None, [ValidationNotice];
      }
      var rec := NewRecord(userId, newReminder);
      write := Some(rec);
      db.AddDoc(rec, newId, writeOk);
      scheduled := None;
      var failed := !writeOk;
      if writeOk && newReminder.receivePhoneNotification {
        var a := Schedule(newReminder.labelText, target, now);
        scheduled := Some(a);
        failed := ThrowsAtOnce(a, platform);
      }
      if failed {
        ShowCustomNotification(AddFailedNotice);
        shown := [AddFailedNotice];
      } else {
        newReminder := EmptyForm;
        ShowCustomNotification(AddedNotice);
        shown := [AddedNotice];
      }
    }

    /** `handleDeleteReminder`: removes the document `id` from `db` when the
        store reports `deleteOk`. */
    method HandleDeleteReminder(db: RemoteCollection, id: DocId, deleteOk: bool) returns (shown: seq<string>)
      modifies db, this`notificationMessage, this`showNotificationPopup
      ensures db.docs == if deleteOk then Remove(old(db.docs), id) else old(db.docs)
      ensures shown == [if deleteOk then DeletedNotice else DeleteFailedNotice]
      ensures notificationMessage == shown[0] && showNotificationPopup
    {
      db.DeleteDoc(id, deleteOk);
      var m := if deleteOk then DeletedNotice else DeleteFailedNotice;
      ShowCustomNotification(m);
      shown := [m];
    }
  }

  /** A signed-in user adds "Call mom" five seconds ahead with a notification
      requested: the next push shows exactly that one reminder, owned by the
      user, and with permission granted exactly one active notification
      naming it arrives at the target time. */
  method AddReminderScenario(now: int) returns (listed: seq<Reminder>, delivered: seq<Delivery>)
    ensures |listed| == 1
    ensures listed[0].labelText == "Call mom" && listed[0].userId == Some("alice")
    ensures delivered == [Delivery(now + 5000, Notification(ActiveTitle, ActivePrefix + "Call mom"))]
  {
    var app := new App();
    var db := new RemoteCollection(map[]);
    app.OnAuthStateChanged(Some("alice"));
    app.SetNewReminder(ReminderForm("Call mom", "2026-10-18T10:00", true));
    var browser := Platform(true, Granted, true);
    var write, scheduled, _ := app.HandleAddReminder(db, "r1", true, Some(now + 5000), now, browser);
    var docs := [Doc("r1", write.value)];
    assert IsSnapshot(docs, db.docs, "alice") by {
      assert DocsMap(docs) == map["r1" := write.value];
      assert Query(db.docs, "alice").Keys == {"r1"};
    }
    app.OnSnapshot("alice", Some(docs));
    listed := app.reminders;
    delivered := Deliver(scheduled.value, now, browser);
  }

  /** Switching from one signed-in user to another tears down the first
      user's listener and sets up the second one's, but the first user's
      reminders stay listed until the new listener's first push. */
  method IdentitySwitchKeepsSnapshot() returns (listed: seq<Reminder>, live: Option<Uid>)
    ensures live == Some("bob")
    ensures |listed| == 1 && listed[0].userId == Some("alice")
  {
    var app := new App();
    app.OnAuthStateChanged(Some("alice"));
    var rec := ReminderRecord(Some("alice"), "Call mom", "2026-10-18T10:00", false, ServerTimestamp);
    app.OnSnapshot("alice", Some([Doc("r1", rec)]));
    app.OnAuthStateChanged(Some("bob"));
    listed := app.reminders;
    live := app.listener;
  }
}
