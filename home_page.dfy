/**
 * The home page (client/pages/Index.tsx): the user's five nearest reminders, the
 * five newest leads and salespersons, and the quick-stat counts. `parse` stands for
 * `new Date(s).getTime()`. The sorts run on copies, so the store's lists are
 * values here and are never changed.
 */
module HomePage {
  import opened Wrappers
  import opened Lists
  import opened CrmTypes
  import opened RemindersPanel

  /** `upcomingReminders`: the first five of the user's reminders by ascending date. */
  function UpcomingReminders(leads: seq<Lead>, user: Option<AuthUser>, parse: string -> int): seq<Lead> {
    Take(Reminders(leads, user, parse), 5)
  }

  /**
   * The five nearest of the user's reminders: as many as there are up to five, ascending
   * by date, taken from the user's leads with a reminder date, and no reminder left out is
   * due before one shown.
   */
  lemma UpcomingRemindersSpec(leads: seq<Lead>, user: Option<AuthUser>, parse: string -> int)
    ensures var r := UpcomingReminders(leads, user, parse);
      var due := Filter(AssignedLeads(leads, user), (l: Lead) => HasReminder(l));
      |r| == (if |due| <= 5 then |due| else 5) && SortedBy(r, (l: Lead) => ReminderTime(parse, l))
      && (forall i :: 0 <= i < |r| ==> r[i] in leads && AssignedTo(r[i], user) && HasReminder(r[i]))
      && multiset(r) <= multiset(due)
      && forall x, y :: x in multiset(due) - multiset(r) && y in r ==> ReminderTime(parse, y) <= ReminderTime(parse, x)
  {
    var all := Reminders(leads, user, parse);
    var r := UpcomingReminders(leads, user, parse);
    var due := Filter(AssignedLeads(leads, user), (l: Lead) => HasReminder(l));
    var key := (l: Lead) => ReminderTime(parse, l);
    forall i | 0 <= i < |r| ensures r[i] in leads && AssignedTo(r[i], user) && HasReminder(r[i]) {
      RemindersSpec(leads, user, parse, r[i]);
      assert r[i] in all;
      assert r[i] in multiset(all);
    }
    assert r == Take(SortBy(due, key), 5);
    SortByTakeLeast(due, 5, key);
    forall x, y | x in multiset(due) - multiset(r) && y in r ensures ReminderTime(parse, y) <= ReminderTime(parse, x) {
      assert key(y) <= key(x);
    }
  }

  /** Descending by the instant a key parses to: the `b - a` comparator. */
  function Newest<T>(s: seq<T>, createdAt: T -> int): seq<T> {
    Take(SortBy(s, (x: T) => -createdAt(x)), 5)
  }

  /**
   * The five newest: as many as there are up to five, newest first, taken from the list,
   * and nothing left out was created after one kept.
   */
  lemma NewestSpec<T>(s: seq<T>, createdAt: T -> int)
    ensures var r := Newest(s, createdAt);
      |r| == (if |s| <= 5 then |s| else 5)
      && (forall i, j :: 0 <= i < j < |r| ==> createdAt(r[i]) >= createdAt(r[j]))
      && (forall i :: 0 <= i < |r| ==> r[i] in s)
      && multiset(r) <= multiset(s)
      && forall x, y :: x in multiset(s) - multiset(r) && y in r ==> createdAt(x) <= createdAt(y)
  {
    var key := (x: T) => -createdAt(x);
    var r := Newest(s, createdAt);
    assert r == Take(SortBy(s, key), 5);
    SortByTakeLeast(s, 5, key);
    forall i | 0 <= i < |r| ensures r[i] in s {
      assert r[i] in multiset(r);
    }
    forall i, j | 0 <= i < j < |r| ensures createdAt(r[i]) >= createdAt(r[j]) {
      assert key(r[i]) <= key(r[j]);
    }
    forall x, y | x in multiset(s) - multiset(r) && y in r ensures createdAt(x) <= createdAt(y) {
      assert key(y) <= key(x);
    }
  }

  /** `recentLeads`: the user's five newest leads. */
  function RecentLeads(leads: seq<Lead>, user: Option<AuthUser>, parse: string -> int): seq<Lead> {
    Newest(AssignedLeads(leads, user), (l: Lead) => parse(l.createdAt))
  }

  /** `recentSalespersons`: the five newest salespersons. */
  function RecentSalespersons(sps: seq<Salesperson>, parse: string -> int): seq<Salesperson> {
    Newest(sps, (s: Salesperson) => parse(s.createdAt))
  }

  /** The quick stats. */
  datatype Stats = Stats(myAssignedLeads: nat, upcomingReminders: nat, totalSalespersons: nat)

  /**
   * The three cards: the number of the user's leads (each lead whose `assignedTo` is the
   * user's id, all of them exactly when every lead is, none exactly when no lead is), the
   * number of reminders shown (five, or all of the user's reminders when there are fewer),
   * and the number of salespersons.
   */
  function QuickStats(leads: seq<Lead>, sps: seq<Salesperson>, user: Option<AuthUser>, parse: string -> int): (st: Stats)
    ensures st.myAssignedLeads == Count(leads, (l: Lead) => AssignedTo(l, user))
    ensures st.myAssignedLeads == |leads| <==> forall i :: 0 <= i < |leads| ==> AssignedTo(leads[i], user)
    ensures st.myAssignedLeads == 0 <==> forall i :: 0 <= i < |leads| ==> !AssignedTo(leads[i], user)
    ensures var due := Count(AssignedLeads(leads, user), (l: Lead) => HasReminder(l));
      st.upcomingReminders == if due <= 5 then due else 5
    ensures st.totalSalespersons == |sps|
  {
    CountAll(leads, (l: Lead) => AssignedTo(l, user));
    CountNone(leads, (l: Lead) => AssignedTo(l, user));
    UpcomingRemindersCount(leads, user, parse);
    Stats(|AssignedLeads(leads, user)|, |UpcomingReminders(leads, user, parse)|, |sps|)
  }

  /** The reminder card counts five, or every one of the user's reminders when there are fewer. */
  lemma UpcomingRemindersCount(leads: seq<Lead>, user: Option<AuthUser>, parse: string -> int)
    ensures var due := Count(AssignedLeads(leads, user), (l: Lead) => HasReminder(l));
      |UpcomingReminders(leads, user, parse)| == if due <= 5 then due else 5
  {
    var due := Filter(AssignedLeads(leads, user), (l: Lead) => HasReminder(l));
    assert |Reminders(leads, user, parse)| == |due|;
  }

  /** "My Assigned Leads" filters by assignee only: the user's role does not matter. */
  lemma AssignedStatIgnoresRole(leads: seq<Lead>, u: AuthUser, role: Option<string>)
    ensures AssignedLeads(leads, Some(u)) == AssignedLeads(leads, Some(u.(role := role)))
  {
    AssignedLeadsById(leads, u, u.(role := role));
  }

  /** `phoneNumbers.some(p => p)`. */
  predicate HasPhone(l: Lead) {
    exists i :: 0 <= i < |l.phoneNumbers| && l.phoneNumbers[i] != ""
  }

  /** `lead.email` is truthy. */
  predicate HasEmail(l: Lead) {
    l.email != ""
  }

  /** "Leads with Email": the leads whose email is not empty; all of them exactly when every lead has one, none exactly when no lead has one. */
  function LeadsWithEmail(leads: seq<Lead>): (n: nat)
    ensures n <= |leads|
    ensures n == |leads| <==> forall i :: 0 <= i < |leads| ==> HasEmail(leads[i])
    ensures n == 0 <==> forall i :: 0 <= i < |leads| ==> !HasEmail(leads[i])
  {
    CountAll(leads, (l: Lead) => HasEmail(l));
    CountNone(leads, (l: Lead) => HasEmail(l));
    Count(leads, (l: Lead) => HasEmail(l))
  }

  /** The email count of two lists together is the sum of their counts. */
  lemma LeadsWithEmailAppend(a: seq<Lead>, b: seq<Lead>)
    ensures LeadsWithEmail(a + b) == LeadsWithEmail(a) + LeadsWithEmail(b)
  {
    CountAppend(a, b, (l: Lead) => HasEmail(l));
  }

  /** "Leads with Phone": the leads with a non-empty phone number; all of them exactly when every lead has one, none exactly when no lead has one. */
  function LeadsWithPhone(leads: seq<Lead>): (n: nat)
    ensures n <= |leads|
    ensures n == |leads| <==> forall i :: 0 <= i < |leads| ==> HasPhone(leads[i])
    ensures n == 0 <==> forall i :: 0 <= i < |leads| ==> !HasPhone(leads[i])
  {
    CountAll(leads, (l: Lead) => HasPhone(l));
    CountNone(leads, (l: Lead) => HasPhone(l));
    Count(leads, (l: Lead) => HasPhone(l))
  }

  /** The phone count of two lists together is the sum of their counts. */
  lemma LeadsWithPhoneAppend(a: seq<Lead>, b: seq<Lead>)
    ensures LeadsWithPhone(a + b) == LeadsWithPhone(a) + LeadsWithPhone(b)
  {
    CountAppend(a, b, (l: Lead) => HasPhone(l));
  }

  /** A lead whose phone list is `[""]`, as the empty form leaves it, is not counted as having a phone. */
  lemma BlankPhoneNotCounted(l: Lead)
    requires l.phoneNumbers == [""]
    ensures LeadsWithPhone([l]) == 0
  {
    assert !HasPhone(l);
    assert [l][1..] == [];
  }
}
