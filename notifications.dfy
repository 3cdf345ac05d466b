/**
 * Milestone notifications: the identifiers of the notification actions and
 * category, the category property of a notification's content, and the rule
 * that at most one milestone notification goes out per calendar day.
 */
module Notifications {
  import opened Options
  import opened History

  /** `Notifications.Actions`. */
  datatype Action = TurnOff | Show

  /** An action's raw value, its identifier. */
  function ActionId(a: Action): string
  {
    match a
    case TurnOff => "TURN_OFF"
    case Show => "SHOW"
  }

  /** `Actions(rawValue:)`. */
  function ActionFromId(id: string): (a: Option<Action>)
    ensures a.Some? ==> ActionId(a.value) == id
  {
    if id == "TURN_OFF" then Some(TurnOff)
    else if id == "SHOW" then Some(Show)
    else None
  }

  function Title(a: Action): string
  {
    match a
    case TurnOff => "Turn off"
    case Show => "Show"
  }

  /** The actions of the milestone category, in order. */
  const MilestoneActions: seq<Action> := [TurnOff, Show]

  /** Raw values and action identifiers convert into each other. */
  lemma ActionIdRoundTrip(a: Action, id: string)
    ensures ActionFromId(ActionId(a)) == Some(a)
    ensures ActionFromId(id) == Some(a) <==> ActionId(a) == id
  {
  }

  /** The titles shown for each action. */
  lemma ActionTitles()
    ensures Title(TurnOff) == "Turn off" && Title(Show) == "Show"
    ensures |MilestoneActions| == 2 && MilestoneActions[0] == TurnOff && MilestoneActions[1] == Show
  {
  }

  /** `Notifications.Categories`. */
  datatype Category = MetricsMilestone

  function CategoryId(c: Category): string
  {
    match c
    case MetricsMilestone => "METRICS_MILESTONE"
  }

  /** `Categories(rawValue:)`. */
  function CategoryFromId(id: string): (c: Option<Category>)
    ensures c.Some? ==> CategoryId(c.value) == id
  {
    if id == "METRICS_MILESTONE" then Some(MetricsMilestone) else None
  }

  lemma CategoryIdRoundTrip(c: Category, id: string)
    ensures CategoryFromId(CategoryId(c)) == Some(c)
    ensures CategoryFromId(id) == Some(c) <==> CategoryId(c) == id
  {
  }

  /** What a registered notification action carries. */
  datatype NotificationAction = NotificationAction(identifier: string, title: string)

  /** What a registered notification category carries. */
  datatype NotificationCategory = NotificationCategory(identifier: string, actions: seq<NotificationAction>)

  /** `Actions.action`: identified by the raw value, labelled with the title. */
  function Describe(a: Action): (r: NotificationAction)
    ensures ActionFromId(r.identifier) == Some(a)
    ensures r.title == Title(a)
  {
    NotificationAction(ActionId(a), Title(a))
  }

  /** `Categories.category`: identified by the raw value, offering the milestone actions. */
  function DescribeCategory(c: Category): (r: NotificationCategory)
    ensures CategoryFromId(r.identifier) == Some(c)
    ensures |r.actions| == |MilestoneActions|
    ensures forall i :: 0 <= i < |r.actions| ==> ActionFromId(r.actions[i].identifier) == Some(MilestoneActions[i])
  {
    CategoryIdRoundTrip(c, CategoryId(c));
    NotificationCategory(CategoryId(c), [Describe(TurnOff), Describe(Show)])
  }

  /** The content of a notification, as far as its category goes. */
  class NotificationContent {
    var categoryIdentifier: string

    constructor()
      ensures categoryIdentifier == ""
    {
      categoryIdentifier := "";
    }

    /** The `category` getter: the category the identifier names, if any. */
    function Category(): Option<Category>
      reads this
    {
      CategoryFromId(categoryIdentifier)
    }

    /** The `category` setter: `nil` is ignored, a category sets the identifier. */
    method SetCategory(c: Option<Category>)
      modifies this
      ensures c.None? ==> categoryIdentifier == old(categoryIdentifier)
      ensures c.Some? ==> categoryIdentifier == CategoryId(c.value)
      ensures c.Some? ==> Category() == c
    {
      if c.None? {
        return;
      }
      categoryIdentifier := CategoryId(c.value);
      CategoryIdRoundTrip(c.value, categoryIdentifier);
    }
  }

  /**
   * Whether `send(milestone:)` asks for a notification: only with a running
   * tracker, and not when the last one went out on the same day as `clock`.
   */
  predicate MaySend(trackerActive: bool, lastNotified: Option<Date>, clock: Date): (r: bool)
    ensures r <==>
      && trackerActive
      && (lastNotified.None? || !(Truncate(clock) * SecondsPerDay <= lastNotified.value < (Truncate(clock) + 1) * SecondsPerDay))
  {
    SameDay(clock, lastNotified.GetOr(clock));
    trackerActive && (lastNotified.None? || Truncate(lastNotified.value) != Truncate(clock))
  }

  /** The stored `lastNotified` date after a send: updated only by a delivery without error. */
  function AfterSend(lastNotified: Option<Date>, requested: bool, deliveryFailed: bool, clock: Date): (r: Option<Date>)
    ensures requested && !deliveryFailed ==> r == Some(clock)
    ensures !requested || deliveryFailed ==> r == lastNotified
    ensures r != lastNotified ==> requested && !deliveryFailed && r == Some(clock)
  {
    if requested && !deliveryFailed then Some(clock) else lastNotified
  }

  /** The stored `lastNotified` date and `send(milestone:)`. */
  class Notifier {
    var lastNotified: Option<Date>

    constructor(lastNotified: Option<Date>)
      ensures this.lastNotified == lastNotified
    {
      this.lastNotified := lastNotified;
    }

    /**
     * `send(milestone:)` at date `clock`; `deliveryFailed` is what the
     * notification center reports once it has the request. Returns whether a
     * request was made.
     */
    method Send(trackerActive: bool, clock: Date, deliveryFailed: bool) returns (requested: bool)
      modifies this
      ensures requested == MaySend(trackerActive, old(lastNotified), clock)
      ensures lastNotified == AfterSend(old(lastNotified), requested, deliveryFailed, clock)
    {
      requested := false;
      if !trackerActive {
        return;
      }
      if lastNotified.Some? && Truncate(lastNotified.value) == Truncate(clock) {
        return;
      }
      requested := true;
      if !deliveryFailed {
        lastNotified := Some(clock);
      }
    }
  }

  /** One call of `send(milestone:)`. */
  datatype Attempt = Attempt(trackerActive: bool, clock: Date, deliveryFailed: bool)

  /** Whether an attempt ends in a notification delivered without error. */
  predicate Delivers(lastNotified: Option<Date>, a: Attempt)
  {
    MaySend(a.trackerActive, lastNotified, a.clock) && !a.deliveryFailed
  }

  function Next(lastNotified: Option<Date>, a: Attempt): Option<Date>
  {
    AfterSend(lastNotified, MaySend(a.trackerActive, lastNotified, a.clock), a.deliveryFailed, a.clock)
  }

  /** The number of deliveries a run of attempts makes, starting from `lastNotified`. */
  function Deliveries(lastNotified: Option<Date>, attempts: seq<Attempt>): nat
    decreases |attempts|
  {
    if attempts == [] then 0
    else
      var first := if Delivers(lastNotified, attempts[0]) then 1 else 0;
      first + Deliveries(Next(lastNotified, attempts[0]), attempts[1..])
  }

  /**
   * However many milestones are sent during one day, at most one notification
   * is delivered, and none once one was delivered earlier that day.
   */
  lemma {:induction false} AtMostOncePerDay(lastNotified: Option<Date>, attempts: seq<Attempt>, day: Day)
    requires forall i :: 0 <= i < |attempts| ==> Truncate(attempts[i].clock) == day
    ensures Deliveries(lastNotified, attempts) <= 1
    ensures lastNotified.Some? && Truncate(lastNotified.value) == day ==> Deliveries(lastNotified, attempts) == 0
    decreases |attempts|
  {
    if attempts != [] {
      var next := Next(lastNotified, attempts[0]);
      assert forall i :: 0 <= i < |attempts[1..]| ==> attempts[1..][i] == attempts[i + 1];
      AtMostOncePerDay(next, attempts[1..], day);
    }
  }
}
