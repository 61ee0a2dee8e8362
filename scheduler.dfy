/** The browser-notification rule of the reminder application: turning a
    reminder's target time into one deferred or immediate notification, gated
    on the browser's notification capability at the moment it fires, and the notice
    shown when the user asks for that permission. Times are integer
    milliseconds; date parsing happens outside this model. */
module Scheduler {
  import opened Types

  const ActiveTitle := "Reminder"
  const MissedTitle := "Reminder (Missed)"
  const ActivePrefix := "Don't forget: "
  const MissedPrefix := "You missed the reminder: "

  const GrantedNotice := "Notification permission granted!"
  const DeniedNotice := "Notification permission denied."
  const UnsupportedNotice := "Browser does not support notifications."

  /** A browser notification as shown to the user (icons are not modelled). */
  datatype Notification = Notification(title: string, body: string)

  /** The browser's notification capability at one moment: whether the page
      has `Notification` at all, its `Notification.permission`, and whether
      `new Notification(...)` succeeds (some mobile browsers throw there). */
  datatype Platform = Platform(supported: bool, permission: Permission, canConstruct: bool)

  /** Whether a notification attempt on `p` reaches the user. */
  predicate Displays(p: Platform) {
    p.supported && p.permission == Granted && p.canConstruct
  }

  /** What scheduling a reminder arranges: a timer that fires after `delay`
      milliseconds, or a notification attempted right away. */
  datatype ScheduledAction =
    | Deferred(delay: int, labelText: string)
    | Immediate(labelText: string)

  /** The result of one notification attempt: shown, skipped because the
      permission is not granted, or an exception. */
  datatype Attempt = Shown(notification: Notification) | Skipped | Threw

  /** A notification delivered at absolute time `at`. */
  datatype Delivery = Delivery(at: int, notification: Notification)

  /** `scheduleBrowserNotification(label, time)`: `target` is the parsed
      reminder time (`None` when the text does not parse, which makes the
      difference NaN and every comparison with it false). */
  function Schedule(labelText: string, target: Option<int>, now: int): (a: ScheduledAction)
    ensures a.labelText == labelText
    ensures a.Deferred? <==> target.Some? && target.value - now > 0
    ensures a.Deferred? ==> a.delay > 0 && now + a.delay == target.value
  {
    if target.Some? && target.value - now > 0 then Deferred(target.value - now, labelText)
    else Immediate(labelText)
  }

  /** 2^31: timer delays at or above it do not survive the conversion below. */
  const TimerLimit := 0x8000_0000

  /** The delay `setTimeout` actually waits for a requested `d`: the argument
      is a WebIDL `long`, so it is taken modulo 2^32 as a signed 32-bit value,
      and the HTML timer steps treat a negative result as 0. */
  function TimerDelay(d: int): (t: int)
    ensures 0 <= t < TimerLimit
    ensures 0 <= d < TimerLimit ==> t == d
    ensures t == 0 || (d - t) % (2 * TimerLimit) == 0
  {
    var w := d % 0x1_0000_0000;
    if w >= TimerLimit then 0 else w
  }

  /** One attempt to notify on platform `p`: reading `Notification.permission`
      throws when the page has no `Notification`, nothing is shown unless the
      permission is granted, and a failing constructor throws. */
  function Fire(a: ScheduledAction, p: Platform): (r: Attempt)
    ensures r.Shown? <==> Displays(p)
    ensures r.Threw? <==> !p.supported || (p.permission == Granted && !p.canConstruct)
    ensures r.Shown? ==> r.notification.title == (if a.Deferred? then ActiveTitle else MissedTitle)
    ensures r.Shown? ==> r.notification.body == (if a.Deferred? then ActivePrefix else MissedPrefix) + a.labelText
  {
    if !p.supported then Threw
    else if p.permission != Granted then Skipped
    else if !p.canConstruct then Threw
    else match a
      case Deferred(_, labelText) => Shown(Notification(ActiveTitle, ActivePrefix + labelText))
      case Immediate(labelText) => Shown(Notification(MissedTitle, MissedPrefix + labelText))
  }

  /** Whether arranging `a` throws inside the handler that arranges it: only
      an immediate attempt runs there; a deferred one runs, and throws, later
      in its timer. */
  function ThrowsAtOnce(a: ScheduledAction, p: Platform): (r: bool)
    ensures r <==> a.Immediate? && (!p.supported || (p.permission == Granted && !p.canConstruct))
  {
    a.Immediate? && Fire(a, p).Threw?
  }

  /** What an action arranged at time `now` delivers, when the platform is `p`
      at the moment it fires: a deferred action fires after the timer's
      actual delay, an immediate one at once. */
  function Deliver(a: ScheduledAction, now: int, p: Platform): (ds: seq<Delivery>)
    ensures |ds| == if Displays(p) then 1 else 0
    ensures forall d <- ds ::
      d.at == (if a.Deferred? then now + TimerDelay(a.delay) else now) && Fire(a, p) == Shown(d.notification)
  {
    match Fire(a, p)
    case Shown(n) => [Delivery(if a.Deferred? then now + TimerDelay(a.delay) else now, n)]
    case _ => []
  }

  /** Everything the user sees from scheduling `labelText` for `target` at time
      `now`, when the platform at firing time is `p`: exactly one notification
      if it can display one and none otherwise; the active one if the target
      is in the future, at the target time when it is less than 2^31 ms
      ahead; the missed one at once if the target is not in the future. */
  lemma ScheduleOutcome(labelText: string, target: Option<int>, now: int, p: Platform)
    ensures var ds := Deliver(Schedule(labelText, target, now), now, p);
      |ds| == (if Displays(p) then 1 else 0) &&
      forall d <- ds ::
        if target.Some? && target.value > now
        then d.notification == Notification(ActiveTitle, ActivePrefix + labelText) &&
             (target.value - now < TimerLimit ==> d.at == target.value)
        else d.at == now && d.notification == Notification(MissedTitle, MissedPrefix + labelText)
  {
  }

  /** A target 2^31 ms (about 24.8 days) or more ahead is not delivered at its
      time: between 2^31 and 2^32 ms the active notification appears at once,
      and between 2^32 and 2^32 + 2^31 ms it appears 2^32 ms too early. */
  lemma FarTargetFiresEarly(labelText: string, target: int, now: int, p: Platform)
    requires Displays(p)
    ensures var ds := Deliver(Schedule(labelText, Some(target), now), now, p);
      var active := Notification(ActiveTitle, ActivePrefix + labelText);
      (TimerLimit <= target - now < 2 * TimerLimit ==> ds == [Delivery(now, active)]) &&
      (2 * TimerLimit <= target - now < 3 * TimerLimit ==> ds == [Delivery(target - 2 * TimerLimit, active)])
  {
  }

  /** The notice for `requestNotificationPermission`: `supported` is whether
      the browser has the Notification capability, `answer` the user's reply
      to the prompt. */
  function PermissionNotice(supported: bool, answer: Permission): (m: string)
    ensures !supported ==> m == UnsupportedNotice
    ensures supported ==> (m == GrantedNotice <==> answer == Granted)
    ensures supported && answer != Granted ==> m == DeniedNotice
  {
    if !supported then UnsupportedNotice
    else if answer == Granted then GrantedNotice
    else DeniedNotice
  }
}
