/**
 * The reminders panel (client/components/RemindersPanel.tsx). Dates are epoch
 * milliseconds: `parse` stands for `new Date(s).getTime()` on a stored date string,
 * `now` for the single instant the panel is computed at, and `dayOf` for
 * `toDateString()` (which depends on the machine's time zone).
 */
module RemindersPanel {
  import opened Wrappers
  import opened Text
  import opened Lists
  import opened CrmTypes

  /** `24 * 60 * 60 * 1000`. */
  const DayMs: int := 86400000

  /** `leads.filter(lead => lead.assignedTo === user?.id)`. */
  function AssignedLeads(leads: seq<Lead>, user: Option<AuthUser>): seq<Lead> {
    Filter(leads, (l: Lead) => AssignedTo(l, user))
  }

  /** Which leads count as the user's depends on the user's id alone. */
  lemma {:induction false} AssignedLeadsById(leads: seq<Lead>, u: AuthUser, v: AuthUser)
    requires u.id == v.id
    ensures AssignedLeads(leads, Some(u)) == AssignedLeads(leads, Some(v))
  {
    if leads != [] {
      AssignedLeadsById(leads[1..], u, v);
    }
  }

  predicate HasReminder(l: Lead) {
    Truthy(l.nextReminderDate)
  }

  /** The reminder's instant; only read for leads that have one. */
  function ReminderTime(parse: string -> int, l: Lead): int {
    if l.nextReminderDate.Some? then parse(l.nextReminderDate.value) else 0
  }

  /** `reminders`: the user's leads with a reminder date, by ascending date. */
  function Reminders(leads: seq<Lead>, user: Option<AuthUser>, parse: string -> int): seq<Lead> {
    SortBy(Filter(AssignedLeads(leads, user), (l: Lead) => HasReminder(l)), (l: Lead) => ReminderTime(parse, l))
  }

  /**
   * `reminders` holds exactly the user's leads that have a reminder date, each as often as
   * in the list, ascending; the reminders due at the same instant as `x` come in the
   * order the leads list has them (the sort is stable).
   */
  lemma RemindersSpec(leads: seq<Lead>, user: Option<AuthUser>, parse: string -> int, x: Lead)
    ensures SortedBy(Reminders(leads, user, parse), (l: Lead) => ReminderTime(parse, l))
    ensures multiset(Reminders(leads, user, parse))[x] ==
      if AssignedTo(x, user) && HasReminder(x) then multiset(leads)[x] else 0
    ensures Filter(Reminders(leads, user, parse), HasKey((l: Lead) => ReminderTime(parse, l), ReminderTime(parse, x))) ==
      Filter(leads, (l: Lead) => AssignedTo(l, user) && HasReminder(l) && ReminderTime(parse, l) == ReminderTime(parse, x))
  {
    var key := (l: Lead) => ReminderTime(parse, l);
    var t := ReminderTime(parse, x);
    var mine := AssignedLeads(leads, user);
    var due := Filter(mine, (l: Lead) => HasReminder(l));
    SortBySorted(due, key);
    FilterMultiset(mine, (l: Lead) => HasReminder(l), x);
    FilterMultiset(leads, (l: Lead) => AssignedTo(l, user), x);
    SortByStable(due, key, t);
    var dueAt := (l: Lead) => HasReminder(l) && ReminderTime(parse, l) == t;
    FilterFilter(mine, (l: Lead) => HasReminder(l), HasKey(key, t), dueAt);
    FilterFilter(leads, (l: Lead) => AssignedTo(l, user), dueAt,
      (l: Lead) => AssignedTo(l, user) && HasReminder(l) && ReminderTime(parse, l) == t);
  }

  /** `overdue`: reminders strictly before `now`. */
  function Overdue(rs: seq<Lead>, parse: string -> int, now: int): seq<Lead> {
    Filter(rs, (l: Lead) => ReminderTime(parse, l) < now)
  }

  /** `upcoming`: reminders at or after `now`. */
  function Upcoming(rs: seq<Lead>, parse: string -> int, now: int): seq<Lead> {
    Filter(rs, (l: Lead) => ReminderTime(parse, l) >= now)
  }

  /** For one `now`, every reminder is either overdue or upcoming, never both. */
  lemma OverdueUpcomingPartition(rs: seq<Lead>, parse: string -> int, now: int)
    ensures multiset(Overdue(rs, parse, now)) + multiset(Upcoming(rs, parse, now)) == multiset(rs)
    ensures |Overdue(rs, parse, now)| + |Upcoming(rs, parse, now)| == |rs|
    ensures forall i :: 0 <= i < |Overdue(rs, parse, now)| ==> Overdue(rs, parse, now)[i] !in Upcoming(rs, parse, now)
  {
    FilterPartition(rs, (l: Lead) => ReminderTime(parse, l) < now, (l: Lead) => ReminderTime(parse, l) >= now);
  }

  /** `getRemindersForNextDays(days)`: reminders from `now` to `now + days` days, both ends included. */
  function ForNextDays(rs: seq<Lead>, parse: string -> int, now: int, days: int): seq<Lead> {
    Filter(rs, (l: Lead) => now <= ReminderTime(parse, l) <= now + days * DayMs)
  }

  /** The window picks from `upcoming`, so the "Later" count `upcoming.length - nextWeek.length` is never negative. */
  lemma WindowWithinUpcoming(rs: seq<Lead>, parse: string -> int, now: int, days: int)
    ensures Filter(Upcoming(rs, parse, now), (l: Lead) => now <= ReminderTime(parse, l) <= now + days * DayMs)
         == ForNextDays(rs, parse, now, days)
    ensures |ForNextDays(rs, parse, now, days)| <= |Upcoming(rs, parse, now)|
    ensures LaterCount(rs, parse, now) >= 0
  {
    var up := (l: Lead) => ReminderTime(parse, l) >= now;
    FilterNarrow(rs, (l: Lead) => now <= ReminderTime(parse, l) <= now + days * DayMs, up);
    FilterNarrow(rs, (l: Lead) => now <= ReminderTime(parse, l) <= now + 7 * DayMs, up);
  }

  /** The "Later" tile. */
  function LaterCount(rs: seq<Lead>, parse: string -> int, now: int): int {
    |Upcoming(rs, parse, now)| - |ForNextDays(rs, parse, now, 7)|
  }

  /** `todayReminders`: the one-day window, kept to reminders on today's calendar day. */
  function TodayReminders(rs: seq<Lead>, parse: string -> int, now: int, dayOf: int -> string): (r: seq<Lead>)
    ensures forall i :: 0 <= i < |r| ==> r[i] in ForNextDays(rs, parse, now, 1)
    ensures forall i :: 0 <= i < |r| ==> dayOf(ReminderTime(parse, r[i])) == dayOf(now)
  {
    Filter(ForNextDays(rs, parse, now, 1), (l: Lead) => dayOf(ReminderTime(parse, l)) == dayOf(now))
  }

  /** `Math.ceil(ms / DayMs)`. */
  function CeilDays(ms: int): (d: int)
    ensures (d - 1) * DayMs < ms <= d * DayMs
  {
    -((-ms) / DayMs)
  }

  /** `getDaysUntil`: whole days from `now` to the reminder, rounded up. */
  function DaysUntil(reminderMs: int, now: int): int {
    CeilDays(reminderMs - now)
  }

  /** An upcoming reminder is due in zero or more days and one in the next week in at most seven. */
  lemma DaysUntilWindow(reminderMs: int, now: int, days: nat)
    requires now <= reminderMs <= now + days * DayMs
    ensures 0 <= DaysUntil(reminderMs, now) <= days
  {
  }

  function IntToString(n: int): string {
    if n < 0 then "-" + NatToString(-n) else NatToString(n)
  }

  /** The due label of an upcoming reminder. */
  function DayLabel(days: int): (r: string)
    ensures days == 0 <==> r == "Today"
    ensures days == 1 <==> r == "Tomorrow"
    ensures days != 0 && days != 1 ==> r == "In " + IntToString(days) + " days"
  {
    if days == 0 then "Today" else if days == 1 then "Tomorrow" else "In " + IntToString(days) + " days"
  }

  /** The listed upcoming reminders: `upcoming.slice(0, 10)`. */
  function ListedUpcoming(rs: seq<Lead>, parse: string -> int, now: int): (r: seq<Lead>)
    ensures |r| == if |Upcoming(rs, parse, now)| <= 10 then |Upcoming(rs, parse, now)| else 10
    ensures r == Upcoming(rs, parse, now)[..|r|]
  {
    Take(Upcoming(rs, parse, now), 10)
  }

  /**
   * Over the user's reminders, the listed ones are the ten earliest upcoming ones:
   * ascending, none before `now`, and no upcoming reminder left out is due before one listed.
   */
  lemma ListedUpcomingEarliest(leads: seq<Lead>, user: Option<AuthUser>, parse: string -> int, now: int, x: Lead)
    ensures var up := Upcoming(Reminders(leads, user, parse), parse, now);
      var r := ListedUpcoming(Reminders(leads, user, parse), parse, now);
      SortedBy(r, (l: Lead) => ReminderTime(parse, l)) &&
      (forall i :: 0 <= i < |r| ==> now <= ReminderTime(parse, r[i])) &&
      multiset(r) <= multiset(up) &&
      forall y :: x in multiset(up) - multiset(r) && y in r ==> ReminderTime(parse, y) <= ReminderTime(parse, x)
  {
    var key := (l: Lead) => ReminderTime(parse, l);
    var rs := Reminders(leads, user, parse);
    RemindersSpec(leads, user, parse, x);
    FilterSorted(rs, (l: Lead) => ReminderTime(parse, l) >= now, key);
    var up := Upcoming(rs, parse, now);
    TakeSorted(up, 10, key);
    TakeSortedLeast(up, 10, key);
  }

  const DefaultStatusColor: string := "bg-slate-100 text-slate-700"

  const StatusColors: map<string, string> := map[
    "Not lifted" := "bg-gray-100 text-gray-700",
    "Not connected" := "bg-red-100 text-red-700",
    "Voice Message" := "bg-blue-100 text-blue-700",
    "Quotation sent" := "bg-yellow-100 text-yellow-700",
    "Site visit" := "bg-purple-100 text-purple-700",
    "Advance payment" := "bg-orange-100 text-orange-700",
    "Lead finished" := "bg-green-100 text-green-700",
    "Contacted" := "bg-cyan-100 text-cyan-700"]

  /** `colors[status || "Not lifted"] || default`. */
  function StatusColor(status: Option<string>): (r: string)
    ensures !Truthy(status) ==> r == StatusColors["Not lifted"]
    ensures Truthy(status) && status.value in StatusColors ==> r == StatusColors[status.value]
    ensures Truthy(status) && status.value !in StatusColors ==> r == DefaultStatusColor
  {
    var key := if Truthy(status) then status.value else "Not lifted";
    if key in StatusColors && StatusColors[key] != "" then StatusColors[key] else DefaultStatusColor
  }
}
