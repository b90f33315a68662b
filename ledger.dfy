/**
 * The ledger: the four tables of the loyalty bot's database (users, visits,
 * events, admins) and the queries the handlers run on them
 * (botcaffe.py:39-153).
 *
 * The tables are modelled as values (Tables) with one function per write and
 * per query; the class Database holds the same tables in mutable fields and
 * its methods are specified by those functions. Timestamps produced from the
 * wall clock in the source (registration and visit dates) are parameters.
 */
module Ledger {
  import opened Wrappers
  import opened Collation
  import EventDates

  type UserId = int

  /** A row of users: the primary key is the map key. */
  datatype UserRow = UserRow(username: Option<string>, fullName: string, phone: Option<string>, regDate: string)

  /** A row of visits; its autoincrement id is not modelled, COUNT(v.id) only counts matched rows. */
  datatype Visit = Visit(userId: UserId, visitDate: string)

  /** A row of events, as SELECT * returns it. */
  datatype Event = Event(id: nat, title: Option<string>, description: Option<string>, eventDate: string, photoId: Option<string>)

  /** One line of the top list: full name and number of visits. */
  datatype TopEntry = TopEntry(fullName: string, visits: nat)

  /** What get_stats returns. */
  datatype Stats = Stats(totalUsers: nat, totalVisits: nat, top: seq<TopEntry>)

  /**
   * The database. userOrder lists the ids of users in order of registration.
   * The model returns users in this order from a SELECT without ORDER BY; it
   * is a choice of the model (SQLite scans the table by its rowid, user_id).
   * The proofs use only that each registered user appears once.
   */
  datatype Tables = Tables(
    users: map<UserId, UserRow>,
    userOrder: seq<UserId>,
    visits: seq<Visit>,
    events: seq<Event>,
    admins: set<UserId>)

  /** The tables as CREATE TABLE IF NOT EXISTS leaves them on a fresh file. */
  const Empty: Tables := Tables(map[], [], [], [], {})

  /** Length of the top list (LIMIT 5). */
  const TopSize: nat := 5

  predicate Distinct(s: seq<UserId>)
  {
    forall i, j :: 0 <= i < j < |s| ==> s[i] != s[j]
  }

  /**
   * What the schema guarantees: user ids are a primary key listed once each,
   * and event ids count up from 1 (autoincrement, no deletes).
   */
  ghost predicate Wellformed(t: Tables)
  {
    && Distinct(t.userOrder)
    && (forall u :: u in t.users <==> u in t.userOrder)
    && (forall i :: 0 <= i < |t.events| ==> t.events[i].id == i + 1)
  }

  // ---- Writes ----

  /** INSERT OR IGNORE INTO admins (botcaffe.py:74). */
  function WithAdmin(t: Tables, u: UserId): (r: Tables)
    ensures r.admins == t.admins + {u}
    ensures r.(admins := t.admins) == t
  {
    t.(admins := t.admins + {u})
  }

  /** SELECT 1 FROM admins WHERE user_id = ? (botcaffe.py:79-80). */
  predicate IsOperator(t: Tables, u: UserId)
  {
    u in t.admins
  }

  /**
   * INSERT OR IGNORE INTO users with no phone (botcaffe.py:84-88): a known id
   * keeps its row untouched; a new id gets a row and goes to the end of the
   * user order.
   */
  function WithUser(t: Tables, u: UserId, username: Option<string>, fullName: string, regDate: string): (r: Tables)
    ensures u in t.users ==> r == t
    ensures u !in t.users ==> r.users == t.users[u := UserRow(username, fullName, None, regDate)]
    ensures u !in t.users ==> r.userOrder == t.userOrder + [u]
    ensures r.visits == t.visits && r.events == t.events && r.admins == t.admins
    ensures Wellformed(t) ==> Wellformed(r)
  {
    if u in t.users then t
    else t.(users := t.users[u := UserRow(username, fullName, None, regDate)], userOrder := t.userOrder + [u])
  }

  /** UPDATE users SET phone = ? WHERE user_id = ? (botcaffe.py:93-96): no row, no change. */
  function WithPhone(t: Tables, u: UserId, phone: string): (r: Tables)
    ensures u !in t.users ==> r == t
    ensures r.users.Keys == t.users.Keys
    ensures u in t.users ==> r.users[u] == t.users[u].(phone := Some(phone))
    ensures forall w :: w in t.users && w != u ==> r.users[w] == t.users[w]
    ensures r.userOrder == t.userOrder && r.visits == t.visits && r.events == t.events && r.admins == t.admins
    ensures Wellformed(t) ==> Wellformed(r)
  {
    if u in t.users then t.(users := t.users[u := t.users[u].(phone := Some(phone))]) else t
  }

  /** INSERT INTO visits (botcaffe.py:101-105); no row in users is needed. */
  function WithVisit(t: Tables, u: UserId, visitDate: string): (r: Tables)
    ensures r.visits == t.visits + [Visit(u, visitDate)]
    ensures r.(visits := t.visits) == t
    ensures Wellformed(t) ==> Wellformed(r)
  {
    t.(visits := t.visits + [Visit(u, visitDate)])
  }

  /** INSERT INTO events; the new id is one more than the last (botcaffe.py:144-147). */
  function WithEvent(t: Tables, title: Option<string>, description: Option<string>, eventDate: string, photoId: Option<string>): (r: Tables)
    ensures r.events == t.events + [Event(|t.events| + 1, title, description, eventDate, photoId)]
    ensures r.(events := t.events) == t
    ensures Wellformed(t) ==> Wellformed(r)
  {
    t.(events := t.events + [Event(|t.events| + 1, title, description, eventDate, photoId)])
  }

  // ---- Queries ----

  /** SELECT COUNT(*) FROM visits WHERE user_id = ? over a list of visits. */
  function CountVisits(vs: seq<Visit>, u: UserId): (n: nat)
    ensures n <= |vs|
  {
    if vs == [] then 0
    else CountVisits(vs[..|vs| - 1], u) + (if vs[|vs| - 1].userId == u then 1 else 0)
  }

  /** get_visits_count (botcaffe.py:109-115): how many visit rows carry the user's id. */
  function VisitCountOf(t: Tables, u: UserId): (n: nat)
    ensures n == multiset(Visitors(t.visits))[u]
  {
    CountVisitsIsMultiplicity(t.visits, u);
    CountVisits(t.visits, u)
  }

  /** The user ids of a list of visits, in order. */
  function Visitors(vs: seq<Visit>): (ids: seq<UserId>)
    ensures |ids| == |vs|
    ensures forall i :: 0 <= i < |vs| ==> ids[i] == vs[i].userId
  {
    seq(|vs|, i requires 0 <= i < |vs| => vs[i].userId)
  }

  /** The per-user count is the number of times the user occurs among the visits. */
  lemma {:induction false} CountVisitsIsMultiplicity(vs: seq<Visit>, u: UserId)
    ensures CountVisits(vs, u) == multiset(Visitors(vs))[u]
    decreases |vs|
  {
    if vs != [] {
      var init := vs[..|vs| - 1];
      CountVisitsIsMultiplicity(init, u);
      assert Visitors(vs) == Visitors(init) + [vs[|vs| - 1].userId];
    }
  }

  /** Appending one visit adds one to its user's count and nothing to anyone else's. */
  lemma CountVisitsAppend(vs: seq<Visit>, v: Visit, u: UserId)
    ensures CountVisits(vs + [v], u) == CountVisits(vs, u) + (if v.userId == u then 1 else 0)
  {
    assert (vs + [v])[..|vs|] == vs;
  }

  /**
   * add_visit (botcaffe.py:99-107): the count it returns is one more than
   * before, every other user's count is unchanged, and the users table is not
   * consulted.
   */
  lemma AddVisitCounts(t: Tables, u: UserId, visitDate: string)
    ensures VisitCountOf(WithVisit(t, u, visitDate), u) == VisitCountOf(t, u) + 1
    ensures forall w :: w != u ==> VisitCountOf(WithVisit(t, u, visitDate), w) == VisitCountOf(t, w)
    ensures |WithVisit(t, u, visitDate).visits| == |t.visits| + 1
  {
    forall w
      ensures VisitCountOf(WithVisit(t, u, visitDate), w) == VisitCountOf(t, w) + (if w == u then 1 else 0)
    {
      CountVisitsAppend(t.visits, Visit(u, visitDate), w);
    }
  }

  /** Recording visits one after another, once per date. */
  function WithVisits(t: Tables, u: UserId, dates: seq<string>): (r: Tables)
    decreases |dates|
  {
    if dates == [] then t else WithVisits(WithVisit(t, u, dates[0]), u, dates[1..])
  }

  /** k visits recorded in a row raise the user's count by exactly k. */
  lemma {:induction false} VisitsAddUp(t: Tables, u: UserId, dates: seq<string>)
    ensures VisitCountOf(WithVisits(t, u, dates), u) == VisitCountOf(t, u) + |dates|
    decreases |dates|
  {
    if dates != [] {
      AddVisitCounts(t, u, dates[0]);
      VisitsAddUp(WithVisit(t, u, dates[0]), u, dates[1..]);
    }
  }

  /** get_all_users (botcaffe.py:117-120). */
  function UserIds(t: Tables): (ids: seq<UserId>)
    ensures Wellformed(t) ==> Distinct(ids) && forall u :: u in ids <==> u in t.users
  {
    t.userOrder
  }

  /** The rows of the LEFT JOIN of users with visits, grouped by user, for the given ids. */
  function RowsFor(t: Tables, ids: seq<UserId>): (rows: seq<TopEntry>)
    ensures (forall u :: u in ids ==> u in t.users) ==> |rows| == |ids|
    ensures forall i :: 0 <= i < |ids| && ids[i] in t.users ==>
              TopEntry(t.users[ids[i]].fullName, VisitCountOf(t, ids[i])) in rows
    ensures forall r :: r in rows ==> exists u :: u in ids && u in t.users && r == TopEntry(t.users[u].fullName, VisitCountOf(t, u))
    decreases |ids|
  {
    if ids == [] then []
    else
      (if ids[0] in t.users then [TopEntry(t.users[ids[0]].fullName, VisitCountOf(t, ids[0]))] else [])
      + RowsFor(t, ids[1..])
  }

  predicate ByVisitsDesc(s: seq<TopEntry>)
  {
    forall i, j :: 0 <= i < j < |s| ==> s[i].visits >= s[j].visits
  }

  function InsertByVisits(e: TopEntry, s: seq<TopEntry>): (r: seq<TopEntry>)
    requires ByVisitsDesc(s)
    ensures ByVisitsDesc(r)
    ensures multiset(r) == multiset(s) + multiset{e}
    decreases |s|
  {
    if s == [] || s[0].visits <= e.visits then
      assert forall j :: 1 <= j < |[e] + s| ==> ([e] + s)[j] == s[j - 1];
      [e] + s
    else
      var rest := InsertByVisits(e, s[1..]);
      assert s == [s[0]] + s[1..];
      MostVisitsStaysFirst(s, e, rest);
      [s[0]] + rest
  }

  /** The first of a ranked list stays first when an entry with fewer visits is inserted behind it. */
  lemma MostVisitsStaysFirst(s: seq<TopEntry>, e: TopEntry, rest: seq<TopEntry>)
    requires ByVisitsDesc(s) && |s| > 0 && ByVisitsDesc(rest) && e.visits <= s[0].visits
    requires multiset(rest) == multiset(s[1..]) + multiset{e}
    ensures ByVisitsDesc([s[0]] + rest)
  {
    forall x | x in rest ensures x.visits <= s[0].visits {
      assert x in multiset(rest);
      if x != e {
        assert x in multiset(s[1..]);
        var j :| 0 <= j < |s[1..]| && s[1..][j] == x;
        assert s[j + 1] == x;
      }
    }
    assert forall j :: 1 <= j < |[s[0]] + rest| ==> ([s[0]] + rest)[j] == rest[j - 1];
  }

  /** ORDER BY visits DESC, ties kept in user order. */
  function SortByVisits(s: seq<TopEntry>): (r: seq<TopEntry>)
    ensures ByVisitsDesc(r)
    ensures multiset(r) == multiset(s)
    decreases |s|
  {
    if s == [] then []
    else
      assert s == [s[0]] + s[1..];
      InsertByVisits(s[0], SortByVisits(s[1..]))
  }

  /** The grouped rows of the LEFT JOIN, ORDER BY visits DESC, before LIMIT. */
  function Ranked(t: Tables): (ranked: seq<TopEntry>)
    ensures ByVisitsDesc(ranked)
    ensures multiset(ranked) == multiset(RowsFor(t, t.userOrder))
  {
    SortByVisits(RowsFor(t, t.userOrder))
  }

  /** The first TopSize entries (LIMIT 5). */
  function Top(ranked: seq<TopEntry>): (top: seq<TopEntry>)
    ensures |top| == if |ranked| < TopSize then |ranked| else TopSize
    ensures forall i :: 0 <= i < |top| ==> top[i] == ranked[i]
    ensures ByVisitsDesc(ranked) ==> ByVisitsDesc(top)
  {
    ranked[..if |ranked| < TopSize then |ranked| else TopSize]
  }

  /** get_stats (botcaffe.py:122-140). */
  function StatsOf(t: Tables): (s: Stats)
    ensures s.totalUsers == |t.users| && s.totalVisits == |t.visits|
    ensures |s.top| <= TopSize && ByVisitsDesc(s.top)
  {
    Stats(|t.users|, |t.visits|, Top(Ranked(t)))
  }

  lemma {:induction false} DistinctCardinality(s: seq<UserId>)
    requires Distinct(s)
    ensures |set u | u in s| == |s|
    decreases |s|
  {
    if s != [] {
      var rest := s[1..];
      DistinctCardinality(rest);
      assert (set u | u in s) == (set u | u in rest) + {s[0]};
      assert s[0] !in rest;
    }
  }

  /**
   * The totals of the statistics report are the table sizes, and the top list
   * has min(5, users) lines: the LEFT JOIN yields one group per registered user.
   */
  lemma StatsTotals(t: Tables)
    requires Wellformed(t)
    ensures StatsOf(t).totalUsers == |t.users|
    ensures StatsOf(t).totalVisits == |t.visits|
    ensures |StatsOf(t).top| == if |t.users| < TopSize then |t.users| else TopSize
  {
    UserCount(t);
    var ranked := Ranked(t);
    assert |ranked| == |t.userOrder| by {
      assert |multiset(ranked)| == |multiset(RowsFor(t, t.userOrder))|;
    }
    assert StatsOf(t).top == Top(ranked);
  }

  /** One row of users per id in the user order. */
  lemma UserCount(t: Tables)
    requires Wellformed(t)
    ensures |t.users| == |t.userOrder|
  {
    DistinctCardinality(t.userOrder);
    assert t.users.Keys == set u | u in t.userOrder;
  }

  /**
   * The top list runs in non-increasing order of visits, and each line is a
   * registered user with that user's full name and count.
   */
  lemma TopLinesAreUsers(t: Tables)
    ensures ByVisitsDesc(StatsOf(t).top)
    ensures forall e :: e in StatsOf(t).top ==>
              exists u :: u in t.users && e == TopEntry(t.users[u].fullName, VisitCountOf(t, u))
  {
    var rows := RowsFor(t, t.userOrder);
    var top := StatsOf(t).top;
    forall e | e in top
      ensures exists u :: u in t.users && e == TopEntry(t.users[u].fullName, VisitCountOf(t, u))
    {
      assert e in Ranked(t);
      assert e in multiset(rows) by { assert e in multiset(Ranked(t)); }
      assert e in rows;
    }
  }

  /** Every group left out of the top list has no more visits than its last line. */
  lemma TopIsTop(t: Tables)
    ensures forall e: TopEntry :: e in multiset(RowsFor(t, t.userOrder)) - multiset(StatsOf(t).top) ==>
              |StatsOf(t).top| > 0 && e.visits <= StatsOf(t).top[|StatsOf(t).top| - 1].visits
  {
    var ranked := Ranked(t);
    assert StatsOf(t).top == Top(ranked);
    assert multiset(ranked) == multiset(RowsFor(t, t.userOrder));
    TopOfSorted(ranked);
  }

  lemma TopOfSorted(ranked: seq<TopEntry>)
    requires ByVisitsDesc(ranked)
    ensures forall e: TopEntry :: e in multiset(ranked) - multiset(Top(ranked)) ==>
              |Top(ranked)| > 0 && e.visits <= Top(ranked)[|Top(ranked)| - 1].visits
  {
    var top := Top(ranked);
    var rest := ranked[|top|..];
    assert top == ranked[..|top|];
    assert ranked == top + rest;
    assert multiset(ranked) == multiset(top) + multiset(rest);
    forall e: TopEntry | e in multiset(ranked) - multiset(top)
      ensures |top| > 0 && e.visits <= top[|top| - 1].visits
    {
      assert e in multiset(rest);
      var j :| 0 <= j < |rest| && rest[j] == e;
      assert |top| == TopSize;
      assert ranked[|top| + j] == e && top[|top| - 1] == ranked[|top| - 1];
    }
  }

  /** The LEFT JOIN keeps every registered user, visits or not. */
  lemma EveryUserRanked(t: Tables, u: UserId)
    requires Wellformed(t) && u in t.users
    ensures TopEntry(t.users[u].fullName, VisitCountOf(t, u)) in RowsFor(t, t.userOrder)
  {
    var i :| 0 <= i < |t.userOrder| && t.userOrder[i] == u;
  }

  predicate ByDate(s: seq<Event>)
  {
    forall i, j :: 0 <= i < j < |s| ==> TextLe(s[i].eventDate, s[j].eventDate)
  }

  function InsertByDate(e: Event, s: seq<Event>): (r: seq<Event>)
    requires ByDate(s)
    ensures ByDate(r)
    ensures multiset(r) == multiset(s) + multiset{e}
    decreases |s|
  {
    if s == [] || TextLe(e.eventDate, s[0].eventDate) then
      EarliestFirst(e, s);
      [e] + s
    else
      var rest := InsertByDate(e, s[1..]);
      TextLeTotal(e.eventDate, s[0].eventDate);
      assert s == [s[0]] + s[1..];
      HeadStaysFirst(s, e, rest);
      [s[0]] + rest
  }

  /** An event dated no later than the first of a sorted list can go in front. */
  lemma EarliestFirst(e: Event, s: seq<Event>)
    requires ByDate(s) && (s == [] || TextLe(e.eventDate, s[0].eventDate))
    ensures ByDate([e] + s)
  {
    forall j | 0 <= j < |s| ensures TextLe(e.eventDate, s[j].eventDate) {
      if j > 0 { TextLeTransitive(e.eventDate, s[0].eventDate, s[j].eventDate); }
    }
    assert forall j :: 1 <= j < |[e] + s| ==> ([e] + s)[j] == s[j - 1];
  }

  /** The first of a sorted list stays first when a later event is inserted behind it. */
  lemma HeadStaysFirst(s: seq<Event>, e: Event, rest: seq<Event>)
    requires ByDate(s) && |s| > 0 && ByDate(rest) && TextLe(s[0].eventDate, e.eventDate)
    requires multiset(rest) == multiset(s[1..]) + multiset{e}
    ensures ByDate([s[0]] + rest)
  {
    forall x | x in rest ensures TextLe(s[0].eventDate, x.eventDate) {
      assert x in multiset(rest);
      if x != e {
        assert x in multiset(s[1..]);
        var j :| 0 <= j < |s[1..]| && s[1..][j] == x;
        assert s[j + 1] == x;
      }
    }
    assert forall j :: 1 <= j < |[s[0]] + rest| ==> ([s[0]] + rest)[j] == rest[j - 1];
  }

  /** ORDER BY event_date, ties kept in insertion order. */
  function SortByDate(s: seq<Event>): (r: seq<Event>)
    ensures ByDate(r)
    ensures multiset(r) == multiset(s)
    decreases |s|
  {
    if s == [] then []
    else
      assert s == [s[0]] + s[1..];
      InsertByDate(s[0], SortByDate(s[1..]))
  }

  /**
   * get_events (botcaffe.py:150-153): every event once, in non-decreasing
   * order of the event_date text.
   */
  function EventListing(t: Tables): (es: seq<Event>)
    ensures ByDate(es)
    ensures multiset(es) == multiset(t.events)
    ensures |es| == |t.events|
  {
    var es := SortByDate(t.events);
    assert |multiset(es)| == |multiset(t.events)|;
    es
  }

  /** An added event comes back from the listing with its fields unchanged. */
  lemma AddedEventListed(t: Tables, title: Option<string>, description: Option<string>, eventDate: string, photoId: Option<string>)
    ensures Event(|t.events| + 1, title, description, eventDate, photoId) in EventListing(WithEvent(t, title, description, eventDate, photoId))
  {
    var e := Event(|t.events| + 1, title, description, eventDate, photoId);
    var t' := WithEvent(t, title, description, eventDate, photoId);
    assert e in multiset(t'.events);
    assert e in multiset(EventListing(t'));
  }

  /** Every event date is a timestamp in the padded storage format, with a four-digit year. */
  ghost predicate StoredDates(es: seq<Event>)
  {
    forall i :: 0 <= i < |es| ==> EventDates.IsStoredText(es[i].eventDate)
  }

  /** Every event date is a text the date step wrote, whatever its year. */
  ghost predicate WrittenDates(es: seq<Event>)
  {
    forall i :: 0 <= i < |es| ==> EventDates.IsWrittenDate(es[i].eventDate)
  }

  /** Reordering the events keeps every date in the storage format. */
  lemma StoredDatesReordered(a: seq<Event>, b: seq<Event>)
    requires StoredDates(a) && multiset(a) == multiset(b)
    ensures StoredDates(b)
  {
    forall i | 0 <= i < |b| ensures EventDates.IsStoredText(b[i].eventDate) {
      assert b[i] in multiset(a) by { assert b[i] in multiset(b); }
      var k :| 0 <= k < |a| && a[k] == b[i];
    }
  }

  /**
   * When every date is in the padded storage format (as the date step
   * writes them for four-digit years), the listing runs from earliest to latest.
   */
  lemma ListingIsChronological(t: Tables)
    requires StoredDates(t.events)
    ensures StoredDates(EventListing(t))
    ensures forall i, j :: 0 <= i < j < |EventListing(t)| ==>
              EventDates.ChronoLe(EventDates.StoredInstant(EventListing(t)[i].eventDate),
                                  EventDates.StoredInstant(EventListing(t)[j].eventDate))
  {
    var es := EventListing(t);
    StoredDatesReordered(t.events, es);
    forall i, j | 0 <= i < j < |es|
      ensures EventDates.ChronoLe(EventDates.StoredInstant(es[i].eventDate), EventDates.StoredInstant(es[j].eventDate))
    {
      EventDates.StoredTextsCompare(es[i].eventDate, es[j].eventDate);
    }
  }

  // ---- Insert-or-ignore ----

  /** add_admin makes the id an operator, keeps every other operator, and a repeat changes nothing. */
  lemma AddAdminIdempotent(t: Tables, u: UserId)
    ensures IsOperator(WithAdmin(t, u), u)
    ensures forall w :: IsOperator(t, w) ==> IsOperator(WithAdmin(t, u), w)
    ensures WithAdmin(WithAdmin(t, u), u) == WithAdmin(t, u)
  {
  }

  /**
   * add_user a second time changes nothing, whatever name and date it is
   * given: username, full name, phone and registration date stay as they were.
   */
  lemma AddUserIdempotent(t: Tables, u: UserId, username: Option<string>, fullName: string, regDate: string,
                          username': Option<string>, fullName': string, regDate': string)
    ensures WithUser(WithUser(t, u, username, fullName, regDate), u, username', fullName', regDate') ==
            WithUser(t, u, username, fullName, regDate)
  {
  }

  /** A repeated /start never erases a phone that was captured. */
  lemma RegisterKeepsPhone(t: Tables, u: UserId, phone: string, username: Option<string>, fullName: string, regDate: string)
    requires u in t.users
    ensures WithUser(WithPhone(t, u, phone), u, username, fullName, regDate).users[u].phone == Some(phone)
  {
  }

  // ---- The database object ----

  /** The connection to the database file, with its four tables. */
  class Database {
    var users: map<UserId, UserRow>
    var userOrder: seq<UserId>
    var visits: seq<Visit>
    var events: seq<Event>
    var admins: set<UserId>

    /** The tables the fields hold. */
    function Contents(): Tables
      reads this
    {
      Tables(users, userOrder, visits, events, admins)
    }

    ghost predicate Valid()
      reads this
    {
      Wellformed(Contents())
    }

    /** Opening a new database file creates the four tables empty (botcaffe.py:40-70). */
    constructor ()
      ensures Valid() && Contents() == Empty
    {
      users, userOrder, visits, events, admins := map[], [], [], [], {};
    }

    method AddAdmin(u: UserId)
      requires Valid()
      modifies this
      ensures Valid() && Contents() == WithAdmin(old(Contents()), u)
    {
      admins := admins + {u};
    }

    method IsAdmin(u: UserId) returns (b: bool)
      ensures b <==> IsOperator(Contents(), u)
    {
      b := u in admins;
    }

    method AddUser(u: UserId, username: Option<string>, fullName: string, regDate: string)
      requires Valid()
      modifies this
      ensures Valid() && Contents() == WithUser(old(Contents()), u, username, fullName, regDate)
    {
      if u !in users {
        users := users[u := UserRow(username, fullName, None, regDate)];
        userOrder := userOrder + [u];
      }
    }

    method UpdatePhone(u: UserId, phone: string)
      requires Valid()
      modifies this
      ensures Valid() && Contents() == WithPhone(old(Contents()), u, phone)
    {
      if u in users {
        users := users[u := users[u].(phone := Some(phone))];
      }
    }

    /** Records the visit and returns the user's new count, one more than before. */
    method AddVisit(u: UserId, visitDate: string) returns (count: nat)
      requires Valid()
      modifies this
      ensures Valid() && Contents() == WithVisit(old(Contents()), u, visitDate)
      ensures count == VisitCountOf(Contents(), u) == VisitCountOf(old(Contents()), u) + 1
    {
      AddVisitCounts(Contents(), u, visitDate);
      visits := visits + [Visit(u, visitDate)];
      count := GetVisitsCount(u);
    }

    method GetVisitsCount(u: UserId) returns (n: nat)
      ensures n == VisitCountOf(Contents(), u)
      ensures n <= |visits|
    {
      n := CountVisits(visits, u);
    }

    method GetAllUsers() returns (ids: seq<UserId>)
      requires Valid()
      ensures ids == UserIds(Contents())
      ensures Distinct(ids) && forall w :: w in ids <==> w in users
    {
      ids := userOrder;
    }

    method GetStats() returns (s: Stats)
      ensures s == StatsOf(Contents())
    {
      s := StatsOf(Contents());
    }

    method AddEvent(title: Option<string>, description: Option<string>, eventDate: string, photoId: Option<string>)
      requires Valid()
      modifies this
      ensures Valid() && Contents() == WithEvent(old(Contents()), title, description, eventDate, photoId)
    {
      events := events + [Event(|events| + 1, title, description, eventDate, photoId)];
    }

    method GetEvents() returns (es: seq<Event>)
      ensures es == EventListing(Contents())
      ensures ByDate(es) && multiset(es) == multiset(events)
    {
      es := SortByDate(events);
    }
  }
}
