/**
 * The bot as a whole: one ledger, and one dialog context per user kept by the
 * dispatcher's storage. A message runs the handler the dispatcher picks
 * (Dialog.Step), which writes to the ledger and answers (botcaffe.py:171-420).
 * Answers are modelled by what they report, not by their wording.
 */
module Bot {
  import opened Wrappers
  import Loyalty
  import EventDates
  import Ledger
  import Dialog
  import Broadcast

  type UserId = Ledger.UserId

  /** The operator added on start-up (botcaffe.py:420). */
  const SeedOperator: UserId := 586842186

  /** The sender's profile as the messaging service reports it with each message. */
  datatype Sender = Sender(id: UserId, username: Option<string>, fullName: string)

  /** The loyalty lines of the main menu (show_main_menu, botcaffe.py:198-221). */
  datatype Menu = Menu(visits: nat, toFree: nat, freeCoffee: bool)

  /** One card of the event listing (botcaffe.py:255-264). */
  datatype Card = Card(title: Option<string>, when: string, description: Option<string>, photoId: Option<string>)

  /** What the bot answers. */
  datatype Reply =
    | Silent                                          // no answer
    | Denied                                          // "no admin rights"
    | Welcome(fullName: string)                       // the /start greeting
    | PhoneSaved(menu: Menu)
    | VisitNoted(note: Loyalty.VisitNote, menu: Menu)
    | MainMenuShown(menu: Menu)
    | BonusCardShown(visits: nat, toFree: nat)
    | NoEvents
    | EventCards(cards: seq<Card>, broken: bool)      // broken: a date failed to parse and ended the listing
    | StatsShown(stats: Ledger.Stats)
    | PanelShown
    | ContactsShown
    | Prompt(next: Dialog.FormState)
    | Reprompt(current: Dialog.FormState)
    | MailingDone(success: nat, total: nat, panel: bool)  // panel: admin_panel let the sender in
    | EventAdded(panel: bool)
    | Thanks(menu: Menu)
    | Failed                                          // the handler raised

  /** show_main_menu for a user with the given number of visits. */
  function MenuFor(visits: nat): (r: Menu)
    ensures r.visits == visits && r.toFree == Loyalty.MenuRemaining(visits) && r.toFree < Loyalty.CycleLength
    ensures r.freeCoffee <==> visits > 0 && r.toFree == 0
  {
    Menu(visits, Loyalty.MenuRemaining(visits), Loyalty.FreeCoffeeToday(visits))
  }

  /** The card shown for an event whose date reads as `when`; an empty photo id is falsy and sends text only. */
  function CardOf(e: Ledger.Event, when: string): (c: Card)
    ensures c.title == e.title && c.when == when && c.description == e.description
    ensures c.photoId.Some? <==> e.photoId.Some? && e.photoId.value != ""
    ensures c.photoId.Some? ==> c.photoId == e.photoId
  {
    Card(e.title, when, e.description, if e.photoId.Some? && e.photoId.value != "" then e.photoId else None)
  }

  /**
   * The loop of show_events: one card per event in listing order, dated by
   * `show` (the strptime/strftime pair, EventDates.DisplayEventDate); a date
   * `show` cannot read raises and ends the listing.
   */
  function Cards(es: seq<Ledger.Event>, show: string -> Option<string>): (r: (seq<Card>, bool))
    ensures |r.0| <= |es|
    ensures r.1 <==> |r.0| < |es|
    ensures |r.0| < |es| ==> show(es[|r.0|].eventDate).None?
  {
    if es == [] then ([], false)
    else if show(es[0].eventDate).None? then ([], true)
    else
      var rest := Cards(es[1..], show);
      ([CardOf(es[0], show(es[0].eventDate).value)] + rest.0, rest.1)
  }

  /** The listing breaks off exactly when some stored date cannot be read. */
  lemma {:induction false} CardsBreakOff(es: seq<Ledger.Event>, show: string -> Option<string>)
    ensures Cards(es, show).1 <==> exists i :: 0 <= i < |es| && show(es[i].eventDate).None?
    decreases |es|
  {
    if es != [] && show(es[0].eventDate).Some? {
      CardsBreakOff(es[1..], show);
      if exists i :: 0 <= i < |es| && show(es[i].eventDate).None? {
        var i :| 0 <= i < |es| && show(es[i].eventDate).None?;
        assert es[1..][i - 1] == es[i];
      }
    }
  }

  /** Every card shown is the card of the event in the same place, with its date as `show` writes it. */
  lemma {:induction false} CardsShowEvents(es: seq<Ledger.Event>, show: string -> Option<string>)
    ensures forall i :: 0 <= i < |Cards(es, show).0| ==>
      show(es[i].eventDate).Some? && Cards(es, show).0[i] == CardOf(es[i], show(es[i].eventDate).value)
    decreases |es|
  {
    if es != [] && show(es[0].eventDate).Some? {
      CardsShowEvents(es[1..], show);
      assert forall i :: 1 <= i < |es| ==> es[i] == es[1..][i - 1];
    }
  }

  /** Which deliveries of a broadcast succeed: a message without text cannot be sent to anyone. */
  function Reach(text: Option<string>, send: UserId -> bool): (reach: UserId -> bool)
    ensures text.None? ==> forall u :: !reach(u)
    ensures text.Some? ==> forall u :: reach(u) == send(u)
  {
    u => text.Some? && send(u)
  }

  /** The ledger write an action makes; the clock reading `now` stamps registrations and visits. */
  function Apply(t: Ledger.Tables, sender: Sender, a: Dialog.Action, now: EventDates.DateTime): (r: Ledger.Tables)
    requires EventDates.ValidDateTime(now)
    ensures !Dialog.WritesLedger(a) ==> r == t
    ensures r.admins == t.admins
    ensures !a.StoreEvent? ==> r.events == t.events
    ensures Ledger.Wellformed(t) ==> Ledger.Wellformed(r)
  {
    match a
    case Register => Ledger.WithUser(t, sender.id, sender.username, sender.fullName, EventDates.StoredText(now))
    case SavePhone(phone) => Ledger.WithPhone(t, sender.id, phone)
    case RecordVisit => Ledger.WithVisit(t, sender.id, EventDates.StoredText(now))
    case StoreEvent(title, description, eventDate, photoId) => Ledger.WithEvent(t, title, description, eventDate, photoId)
    case _ => t
  }

  /**
   * The answer to an action, read off the ledger as the action left it. Only
   * an ignored message goes unanswered and only a raise fails; the broadcast
   * report counts every listed user; the listing is empty exactly when there
   * are no events.
   */
  function Respond(t: Ledger.Tables, sender: Sender, a: Dialog.Action, send: UserId -> bool): (r: Reply)
    ensures r == Silent <==> a == Dialog.Ignore
    ensures r == Failed <==> a == Dialog.Raise
    ensures a.Broadcast? ==> r.MailingDone? && r.total == |Ledger.UserIds(t)| && r.success <= r.total
    ensures a.EventList? ==> (r == NoEvents <==> t.events == [])
  {
    var visits := Ledger.VisitCountOf(t, sender.id);
    match a
    case Ignore => Silent
    case Deny => Denied
    case Register => Welcome(sender.fullName)
    case SavePhone(_) => PhoneSaved(MenuFor(visits))
    case RecordVisit => VisitNoted(Loyalty.MarkVisitNote(visits), MenuFor(visits))
    case MainMenu => MainMenuShown(MenuFor(visits))
    case BonusCard => BonusCardShown(visits, Loyalty.BonusRemaining(visits))
    case EventList =>
      var es := Ledger.EventListing(t);
      if es == [] then NoEvents else EventCards(Cards(es, EventDates.DisplayEventDate).0, Cards(es, EventDates.DisplayEventDate).1)
    case StatsReport => StatsShown(Ledger.StatsOf(t))
    case Panel => PanelShown
    case ContactInfo => ContactsShown
    case Ask(next) => Prompt(next)
    case Reask(current) => Reprompt(current)
    case Broadcast(text) =>
      var rs := Ledger.UserIds(t);
      MailingDone(Broadcast.Delivered(rs, Reach(text, send)), |rs|, Ledger.IsOperator(t, sender.id))
    case StoreEvent(_, _, _, _) => EventAdded(Ledger.IsOperator(t, sender.id))
    case FeedbackThanks => Thanks(MenuFor(visits))
    case Raise => Failed
  }

  /** A user's dialog context: none stored means no state and no data. */
  function SessionOf(sessions: map<UserId, Dialog.Session>, u: UserId): Dialog.Session
  {
    if u in sessions then sessions[u] else Dialog.Idle
  }

  class Bot {
    const db: Ledger.Database
    var sessions: map<UserId, Dialog.Session>

    /**
     * The ledger is well formed and every event date is one the date step
     * wrote; every context holds what its state needs, and only operators
     * are in an operator state.
     */
    ghost predicate Valid()
      reads this, db
    {
      && db.Valid()
      && Ledger.WrittenDates(db.events)
      && SessionsValid(sessions, db.Contents())
    }

    /** main (botcaffe.py:418-422) on a new database file: the seed operator is added. */
    constructor ()
      ensures Valid()
      ensures db.Contents() == Ledger.WithAdmin(Ledger.Empty, SeedOperator) && sessions == map[]
    {
      db := new Ledger.Database();
      sessions := map[];
      new;
      db.AddAdmin(SeedOperator);
    }

    /**
     * One incoming message: the handler the dispatcher picks runs against the
     * sender's context, makes its ledger write, and answers.
     */
    method Handle(sender: Sender, m: Dialog.Message, now: EventDates.DateTime, send: UserId -> bool) returns (reply: Reply)
      requires Valid() && EventDates.ValidDateTime(now)
      modifies this, db
      ensures Valid()
      ensures var o := Dialog.Step(SessionOf(old(sessions), sender.id), Ledger.IsOperator(old(db.Contents()), sender.id), m);
        && sessions == old(sessions)[sender.id := o.next]
        && db.Contents() == Apply(old(db.Contents()), sender, o.action, now)
        && reply == Respond(db.Contents(), sender, o.action, send)
    {
      var isAdmin := db.IsAdmin(sender.id);
      var s := SessionOf(sessions, sender.id);
      var o := Dialog.Step(s, isAdmin, m);
      ghost var before := db.Contents();
      StepKeepsSessions(sessions, before, sender.id, isAdmin, m);
      Dialog.StoredEventDateIsWritten(s, isAdmin, m);
      reply := Perform(sender, o.action, now, send);
      WrittenDatesKept(before, sender, o.action, now);
      sessions := sessions[sender.id := o.next];
    }

    /** The ledger write and the answer of one handler run. */
    method Perform(sender: Sender, a: Dialog.Action, now: EventDates.DateTime, send: UserId -> bool) returns (reply: Reply)
      requires db.Valid() && EventDates.ValidDateTime(now)
      modifies db
      ensures db.Valid()
      ensures db.Contents() == Apply(old(db.Contents()), sender, a, now)
      ensures reply == Respond(db.Contents(), sender, a, send)
    {
      match a {
        case Register =>
          db.AddUser(sender.id, sender.username, sender.fullName, EventDates.StoredText(now));
          reply := Welcome(sender.fullName);
        case SavePhone(phone) =>
          db.UpdatePhone(sender.id, phone);
          var visits := db.GetVisitsCount(sender.id);
          reply := PhoneSaved(MenuFor(visits));
        case RecordVisit =>
          var visits := db.AddVisit(sender.id, EventDates.StoredText(now));
          reply := VisitNoted(Loyalty.MarkVisitNote(visits), MenuFor(visits));
        case StoreEvent(title, description, eventDate, photoId) =>
          db.AddEvent(title, description, eventDate, photoId);
          var panel := db.IsAdmin(sender.id);
          reply := EventAdded(panel);
        case _ =>
          reply := Answer(sender, a, send);
      }
    }

    /** The answer of a handler that does not write to the ledger. */
    method Answer(sender: Sender, a: Dialog.Action, send: UserId -> bool) returns (reply: Reply)
      requires db.Valid() && !Dialog.WritesLedger(a)
      ensures reply == Respond(db.Contents(), sender, a, send)
    {
      match a {
        case MainMenu =>
          var visits := db.GetVisitsCount(sender.id);
          reply := MainMenuShown(MenuFor(visits));
        case BonusCard =>
          var visits := db.GetVisitsCount(sender.id);
          reply := BonusCardShown(visits, Loyalty.BonusRemaining(visits));
        case FeedbackThanks =>
          var visits := db.GetVisitsCount(sender.id);
          reply := Thanks(MenuFor(visits));
        case EventList =>
          var es := db.GetEvents();
          if es == [] {
            reply := NoEvents;
          } else {
            var cards := Cards(es, EventDates.DisplayEventDate);
            reply := EventCards(cards.0, cards.1);
          }
        case StatsReport =>
          var stats := db.GetStats();
          reply := StatsShown(stats);
        case Broadcast(text) =>
          var recipients := db.GetAllUsers();
          var success, failures := Broadcast.Dispatch(recipients, Reach(text, send));
          var panel := db.IsAdmin(sender.id);
          reply := MailingDone(success, |recipients|, panel);
        case Ignore => reply := Silent;
        case Deny => reply := Denied;
        case Panel => reply := PanelShown;
        case ContactInfo => reply := ContactsShown;
        case Ask(next) => reply := Prompt(next);
        case Reask(current) => reply := Reprompt(current);
        case Raise => reply := Failed;
      }
    }
  }

  /**
   * Every dialog context holds what its state needs, and only operators are
   * in an operator state.
   */
  ghost predicate SessionsValid(sessions: map<UserId, Dialog.Session>, t: Ledger.Tables)
  {
    forall u :: u in sessions ==>
      Dialog.SessionInv(sessions[u]) && (Dialog.OperatorState(sessions[u].state) ==> Ledger.IsOperator(t, u))
  }

  /** One step of one user's dialog keeps every context valid, whatever it writes short of the operators. */
  lemma StepKeepsSessions(sessions: map<UserId, Dialog.Session>, t: Ledger.Tables, u: UserId, isAdmin: bool, m: Dialog.Message)
    requires SessionsValid(sessions, t) && isAdmin == Ledger.IsOperator(t, u)
    ensures forall t': Ledger.Tables :: t'.admins == t.admins ==>
      SessionsValid(sessions[u := Dialog.Step(SessionOf(sessions, u), isAdmin, m).next], t')
  {
    var s := SessionOf(sessions, u);
    Dialog.StepKeepsSessionInv(s, isAdmin, m);
    if !isAdmin {
      Dialog.NonOperatorStaysOut(s, m);
    }
  }

  /** Every event date stays one the date step wrote when the event stored has such a date. */
  lemma WrittenDatesKept(t: Ledger.Tables, sender: Sender, a: Dialog.Action, now: EventDates.DateTime)
    requires EventDates.ValidDateTime(now)
    requires Ledger.WrittenDates(t.events)
    requires a.StoreEvent? ==> EventDates.IsWrittenDate(a.eventDate)
    ensures Ledger.WrittenDates(Apply(t, sender, a, now).events)
  {
  }

  // ---- Properties ----

  /**
   * With every event date in the padded storage format (a four-digit year),
   * the listing shows a card for every event, dated in the display format,
   * and never breaks off.
   */
  lemma ListingComplete(t: Ledger.Tables)
    requires Ledger.StoredDates(t.events)
    ensures Ledger.StoredDates(Ledger.EventListing(t))
    ensures var cards := Cards(Ledger.EventListing(t), EventDates.DisplayEventDate);
      && !cards.1 && |cards.0| == |t.events|
      && forall i :: 0 <= i < |t.events| ==>
           cards.0[i] == CardOf(Ledger.EventListing(t)[i],
                                EventDates.DisplayText(EventDates.StoredInstant(Ledger.EventListing(t)[i].eventDate)))
  {
    Ledger.ListingIsChronological(t);
    CardsOfStoredDates(Ledger.EventListing(t));
  }

  lemma CardsOfStoredDates(es: seq<Ledger.Event>)
    requires Ledger.StoredDates(es)
    ensures var cards := Cards(es, EventDates.DisplayEventDate);
      && !cards.1 && |cards.0| == |es|
      && forall i :: 0 <= i < |es| ==>
           cards.0[i] == CardOf(es[i], EventDates.DisplayText(EventDates.StoredInstant(es[i].eventDate)))
  {
    CardsBreakOff(es, EventDates.DisplayEventDate);
    CardsShowEvents(es, EventDates.DisplayEventDate);
    forall i | 0 <= i < |es| ensures EventDates.DisplayEventDate(es[i].eventDate) ==
      Some(EventDates.DisplayText(EventDates.StoredInstant(es[i].eventDate)))
    {
      EventDates.StoredTextReads(es[i].eventDate);
    }
  }

  /**
   * One event whose date the date step wrote for a year below 1000 breaks
   * the listing off, however many events there are: neither that event nor
   * any event listed after it gets a card.
   */
  lemma ListingBreaksOnShortYear(t: Ledger.Tables, i: nat, dt: EventDates.DateTime)
    requires i < |t.events| && EventDates.ValidDateTime(dt) && dt.year < 1000
    requires t.events[i].eventDate == EventDates.StoredText(dt)
    ensures Cards(Ledger.EventListing(t), EventDates.DisplayEventDate).1
    ensures exists j :: 0 <= j < |Ledger.EventListing(t)| && Ledger.EventListing(t)[j] == t.events[i]
                     && |Cards(Ledger.EventListing(t), EventDates.DisplayEventDate).0| <= j
  {
    var es := Ledger.EventListing(t);
    assert t.events[i] in multiset(es) by { assert t.events[i] in multiset(t.events); }
    var j :| 0 <= j < |es| && es[j] == t.events[i];
    EventDates.ShortYearUnreadable(dt);
    CardsShowEvents(es, EventDates.DisplayEventDate);
  }

  /**
   * A user without operator rights, outside the operator states, changes
   * neither the events nor the operators, and gets no statistics, panel,
   * broadcast report or event confirmation.
   */
  lemma NonOperatorCannotAdminister(t: Ledger.Tables, s: Dialog.Session, sender: Sender, m: Dialog.Message,
                                    now: EventDates.DateTime, send: UserId -> bool)
    requires EventDates.ValidDateTime(now)
    requires !Dialog.OperatorState(s.state)
    ensures var a := Dialog.Step(s, false, m).action;
      var t' := Apply(t, sender, a, now);
      && t'.events == t.events && t'.admins == t.admins
      && !Respond(t', sender, a, send).StatsShown? && Respond(t', sender, a, send) != PanelShown
      && !Respond(t', sender, a, send).MailingDone? && !Respond(t', sender, a, send).EventAdded?
  {
    Dialog.NonOperatorStaysOut(s, m);
  }

  /**
   * The visit note and the menu shown after it agree: the note announces a
   * free coffee exactly when the menu does, and both count the new visit.
   */
  lemma VisitReplyAgrees(t: Ledger.Tables, sender: Sender, now: EventDates.DateTime, send: UserId -> bool)
    requires EventDates.ValidDateTime(now)
    ensures var r := Respond(Apply(t, sender, Dialog.RecordVisit, now), sender, Dialog.RecordVisit, send);
      && r.menu.visits == Ledger.VisitCountOf(t, sender.id) + 1
      && (r.note == Loyalty.FreeCoffee <==> r.menu.freeCoffee)
  {
    Ledger.AddVisitCounts(t, sender.id, EventDates.StoredText(now));
  }

  /**
   * The broadcast report: every registered user is a recipient, the count of
   * deliveries is at most that, and a message without text reaches nobody.
   */
  lemma MailingReport(t: Ledger.Tables, sender: Sender, text: Option<string>, send: UserId -> bool)
    requires Ledger.Wellformed(t)
    ensures var r := Respond(t, sender, Dialog.Broadcast(text), send);
      && r.total == |t.users| && r.success <= r.total
      && (text.None? ==> r.success == 0)
      && (r.success == r.total <==> forall u :: u in t.users ==> Reach(text, send)(u))
  {
    var rs := Ledger.UserIds(t);
    var reach := Reach(text, send);
    assert |rs| == |t.users| by {
      Ledger.DistinctCardinality(rs);
      assert t.users.Keys == set u | u in rs;
    }
    assert Broadcast.Delivered(rs, reach) == |rs| <==> forall u :: u in t.users ==> reach(u) by {
      if forall u :: u in t.users ==> reach(u) {
        assert forall i :: 0 <= i < |rs| ==> reach(rs[i]) by {
          forall i | 0 <= i < |rs| ensures reach(rs[i]) {
            assert rs[i] in rs;
          }
        }
      }
      if forall i :: 0 <= i < |rs| ==> reach(rs[i]) {
        forall u | u in t.users ensures reach(u) {
          var i :| 0 <= i < |rs| && rs[i] == u;
        }
      }
    }
    if text.None? {
      NobodyReached(rs, send);
    }
  }

  lemma {:induction false} NobodyReached(rs: seq<UserId>, send: UserId -> bool)
    ensures Broadcast.Delivered(rs, Reach(None, send)) == 0
    decreases |rs|
  {
    if rs != [] {
      NobodyReached(rs[..|rs| - 1], send);
    }
  }
}
