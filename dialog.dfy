/**
 * The per-user conversation: the states of Form (botcaffe.py:158-165), the
 * data accumulated while a flow runs, which handler a message reaches, and
 * what each handler does to the state and asks of the ledger and the
 * transport.
 *
 * Routing rests on two stated assumptions about the dispatcher library: the
 * handlers are tried in the order they are registered and the first whose
 * filters match runs; a handler registered without a state filter matches in
 * every state.
 */
module Dialog {
  import opened Wrappers
  import EventDates

  /** The states of Form. Phone is declared but no handler ever enters it. */
  datatype FormState = Phone | EventTitle | EventDescription | EventDate | EventPhoto | MailingMessage | Feedback

  /** Keys of the data accumulator (update_data). */
  datatype Field = Title | Description | Date

  /**
   * One user's context: the state (None once cleared, or never set) and the
   * accumulated data. set_state replaces the state and keeps the data; clear
   * empties both.
   */
  datatype Session = Session(state: Option<FormState>, data: map<Field, Option<string>>)

  const Idle: Session := Session(None, map[])

  /** What a message carries, as far as the handlers look at it. */
  datatype Message =
    | Text(text: string)
    | Contact(phone: string)
    | Photo(sizes: seq<string>)   // file ids of the sizes sent, largest last; a photo has no text
    | Other                       // any other kind: no text, no contact, no photo

  /** message.text */
  function TextOf(m: Message): (t: Option<string>)
    ensures t.Some? <==> m.Text?
  {
    if m.Text? then Some(m.text) else None
  }

  const StartCommand: string := "/start"
  const MarkVisitButton: string := "☕ Отметить посещение"
  const BonusesButton: string := "🎁 Мои бонусы"
  const EventsButton: string := "📅 События"
  const AdminCommand: string := "/admin"
  const StatsButton: string := "📊 Статистика"
  const MailingButton: string := "📢 Рассылка"
  const AddEventButton: string := "➕ Добавить событие"
  const MainMenuButton: string := "◀️ В главное меню"
  const ContactsButton: string := "📱 Контакты"
  const FeedbackButton: string := "✉️ Отзыв"
  const SkipWord: string := "пропустить"

  /** The handlers, in registration order. */
  datatype Handler =
    | CmdStart | ProcessPhone | MarkVisit | ShowBonuses | ShowEvents | AdminPanel | ShowStats
    | StartMailing | ProcessMailing | StartAddingEvent | ProcessEventTitle | ProcessEventDescription
    | ProcessEventDate | ProcessEventPhoto | BackToMainMenu | ShowContacts | StartFeedback
    | ProcessFeedback | NoHandler

  /**
   * The first registered handler whose filters match the message in this
   * state. "/start" wins in every state, and in every state a flow waits in
   * some handler takes the message.
   */
  function Route(state: Option<FormState>, m: Message): (h: Handler)
    ensures h == CmdStart <==> TextOf(m) == Some(StartCommand)
    ensures h == NoHandler ==> state.None? || state.value.Phone?
  {
    var t := TextOf(m);
    if t == Some(StartCommand) then CmdStart
    else if m.Contact? then ProcessPhone
    else if t == Some(MarkVisitButton) then MarkVisit
    else if t == Some(BonusesButton) then ShowBonuses
    else if t == Some(EventsButton) then ShowEvents
    else if t == Some(AdminCommand) then AdminPanel
    else if t == Some(StatsButton) then ShowStats
    else if t == Some(MailingButton) then StartMailing
    else if state == Some(MailingMessage) then ProcessMailing
    else if t == Some(AddEventButton) then StartAddingEvent
    else if state == Some(EventTitle) then ProcessEventTitle
    else if state == Some(EventDescription) then ProcessEventDescription
    else if state == Some(EventDate) then ProcessEventDate
    else if state == Some(EventPhoto) then ProcessEventPhoto
    else if t == Some(MainMenuButton) then BackToMainMenu
    else if t == Some(ContactsButton) then ShowContacts
    else if t == Some(FeedbackButton) then StartFeedback
    else if state == Some(Feedback) then ProcessFeedback
    else NoHandler
  }

  /** The texts whose handlers are registered before the event-authoring steps. */
  predicate IsEarlyCommand(t: string)
  {
    t == StartCommand || t == MarkVisitButton || t == BonusesButton || t == EventsButton
    || t == AdminCommand || t == StatsButton || t == MailingButton || t == AddEventButton
  }

  // ---- Letter case ----

  /**
   * str.lower on the letters that matter here: Latin A-Z and the Cyrillic
   * capitals U+0400-U+042F; every other character is left as it is.
   */
  function LowerChar(c: char): char
  {
    if 'A' <= c <= 'Z' then (c as int + 32) as char
    else if '\U{0410}' <= c <= '\U{042F}' then (c as int + 32) as char
    else if '\U{0400}' <= c <= '\U{040F}' then (c as int + 80) as char
    else c
  }

  function Lower(s: string): (r: string)
    ensures |r| == |s|
    ensures forall i :: 0 <= i < |s| ==> r[i] == LowerChar(s[i])
  {
    seq(|s|, i requires 0 <= i < |s| => LowerChar(s[i]))
  }

  /** message.text.lower() == "пропустить" (botcaffe.py:373). */
  function IsSkip(t: string): (b: bool)
    ensures b <==> |t| == |SkipWord| && forall i :: 0 <= i < |t| ==> LowerChar(t[i]) == SkipWord[i]
  {
    Lower(t) == SkipWord
  }

  lemma SkipInAnyCase()
    ensures IsSkip("пропустить") && IsSkip("Пропустить") && IsSkip("ПРОПУСТИТЬ")
    ensures !IsSkip("skip") && !IsSkip("пропустить ")
  {
    assert Lower("Пропустить") == SkipWord;
    assert Lower("ПРОПУСТИТЬ") == SkipWord;
    assert Lower("пропустить") == SkipWord;
    assert |Lower("пропустить ")| != |SkipWord|;
    assert Lower("skip")[0] != SkipWord[0];
  }

  // ---- Handlers ----

  /** What a handler asks of the ledger and the transport. */
  datatype Action =
    | Ignore                        // nothing, or a privileged command from a non-operator that gets no answer
    | Deny                          // the "no admin rights" reply and nothing else
    | Register                      // add_user for the sender, then the greeting
    | SavePhone(phone: string)      // update_phone, then the main menu
    | RecordVisit                   // add_visit, the visit note, then the main menu
    | MainMenu
    | BonusCard
    | EventList
    | StatsReport
    | Panel                         // the operator panel
    | ContactInfo
    | Ask(next: FormState)          // a prompt for the input of the state just entered
    | Reask(current: FormState)     // the input was refused; the same prompt again
    | Broadcast(text: Option<string>)
    | StoreEvent(title: Option<string>, description: Option<string>, eventDate: string, photoId: Option<string>)
    | FeedbackThanks                // thanks, then the main menu; the text is not kept
    | Raise                         // the handler raised; nothing after the error happens

  /** The actions that write to the ledger. */
  predicate WritesLedger(a: Action)
  {
    a.Register? || a.SavePhone? || a.RecordVisit? || a.StoreEvent?
  }

  datatype Outcome = Outcome(next: Session, action: Action)

  /**
   * process_event_date (botcaffe.py:359-367): a message without text raises,
   * a text that is no date re-prompts, and a date is stored as the date step
   * writes it; only then does the context change.
   */
  function EventDateStep(s: Session, m: Message): (o: Outcome)
    ensures o.action == Raise <==> !m.Text?
    ensures o.action == Ask(EventPhoto) <==> m.Text? && EventDates.ParseInput(m.text).Some?
    ensures o.action != Ask(EventPhoto) ==> o.next == s
    ensures o.action == Ask(EventPhoto) ==>
      && o.next.state == Some(EventPhoto)
      && o.next.data.Keys == s.data.Keys + {Date}
      && (forall f :: f in s.data && f != Date ==> o.next.data[f] == s.data[f])
      && o.next.data[Date].Some? && EventDates.IsWrittenDate(o.next.data[Date].value)
  {
    match TextOf(m)
    // strptime of a message without text raises TypeError, which the handler does not catch
    case None => Outcome(s, Raise)
    case Some(t) =>
      match EventDates.NormalizeEventDate(t)
      case None => Outcome(s, Reask(EventDate))
      case Some(stored) => Outcome(Session(Some(EventPhoto), s.data[Date := Some(stored)]), Ask(EventPhoto))
  }

  /** The photo the photo step keeps: None for a skip, the largest size of a photo. */
  function PhotoChoice(m: Message): (r: Option<Option<string>>)
    ensures r == Some(None) <==> m.Text? && IsSkip(m.text)
    ensures (r.Some? && r.value.Some?) <==> m.Photo? && |m.sizes| > 0
    ensures r.Some? && r.value.Some? ==> r.value.value == m.sizes[|m.sizes| - 1]
  {
    if m.Text? && IsSkip(m.text) then Some(None)
    else if m.Photo? && |m.sizes| > 0 then Some(Some(m.sizes[|m.sizes| - 1]))
    else None
  }

  /**
   * process_event_photo (botcaffe.py:369-385): anything but a skip or a photo
   * re-prompts; otherwise the event is stored with the chosen photo and the
   * context is cleared, unless a field is missing.
   */
  function EventPhotoStep(s: Session, m: Message): (o: Outcome)
    ensures o.action.Reask? <==> PhotoChoice(m).None?
    ensures o.action.StoreEvent? ==> o.next == Idle && o.action.photoId == PhotoChoice(m).value
    ensures !o.action.StoreEvent? ==> o.next == s
    ensures o.action.StoreEvent? || o.action.Reask? || o.action == Raise
  {
    match PhotoChoice(m)
    case None => Outcome(s, Reask(EventPhoto))
    case Some(photoId) =>
      if Title in s.data && Description in s.data && Date in s.data && s.data[Date].Some? then
        Outcome(Idle, StoreEvent(s.data[Title], s.data[Description], s.data[Date].value, photoId))
      else
        // data['title'] and the like raise KeyError when the key is missing
        Outcome(s, Raise)
  }

  /**
   * One message: the handler Route picks, run against the sender's context.
   * A re-prompt repeats the prompt of the state the user is in.
   */
  function Step(s: Session, isAdmin: bool, m: Message): (o: Outcome)
    ensures o.action.Reask? ==> o.next == s && s.state == Some(o.action.current)
  {
    StateHandlersRunInTheirState(s.state, m);
    RunHandler(Route(s.state, m), s, isAdmin, m)
  }

  /**
   * What handler h does with message m from a user in context s. A prompt
   * moves the user into the state whose input it asks for; a refused input or
   * an error keeps the context; finishing a flow clears it.
   */
  function RunHandler(h: Handler, s: Session, isAdmin: bool, m: Message): (o: Outcome)
    ensures o.action.Ask? ==> o.next.state == Some(o.action.next)
    ensures o.action.Reask? || o.action == Raise ==> o.next == s
    ensures o.action.Broadcast? || o.action.StoreEvent? || o.action == FeedbackThanks ==> o.next == Idle
  {
    match h
    case CmdStart => Outcome(s, Register)
    case ProcessPhone => Outcome(s, if m.Contact? then SavePhone(m.phone) else Ignore)
    case MarkVisit => Outcome(s, RecordVisit)
    case ShowBonuses => Outcome(s, BonusCard)
    case ShowEvents => Outcome(s, EventList)
    case AdminPanel => Outcome(s, if isAdmin then Panel else Deny)
    case ShowStats => Outcome(s, if isAdmin then StatsReport else Ignore)
    case StartMailing =>
      if isAdmin then Outcome(s.(state := Some(MailingMessage)), Ask(MailingMessage)) else Outcome(s, Ignore)
    case ProcessMailing => Outcome(Idle, Broadcast(TextOf(m)))
    case StartAddingEvent =>
      if isAdmin then Outcome(s.(state := Some(EventTitle)), Ask(EventTitle)) else Outcome(s, Ignore)
    case ProcessEventTitle =>
      Outcome(Session(Some(EventDescription), s.data[Title := TextOf(m)]), Ask(EventDescription))
    case ProcessEventDescription =>
      Outcome(Session(Some(EventDate), s.data[Description := TextOf(m)]), Ask(EventDate))
    case ProcessEventDate => EventDateStep(s, m)
    case ProcessEventPhoto => EventPhotoStep(s, m)
    case BackToMainMenu => Outcome(s, MainMenu)
    case ShowContacts => Outcome(s, ContactInfo)
    case StartFeedback => Outcome(s.(state := Some(Feedback)), Ask(Feedback))
    case ProcessFeedback => Outcome(Idle, FeedbackThanks)
    case NoHandler => Outcome(s, Ignore)
  }

  /** Several messages from one user, one after another. */
  function Run(s: Session, isAdmin: bool, ms: seq<Message>): (r: (Session, seq<Action>))
    ensures |r.1| == |ms|
    decreases |ms|
  {
    if ms == [] then (s, [])
    else
      var o := Step(s, isAdmin, ms[0]);
      var rest := Run(o.next, isAdmin, ms[1..]);
      (rest.0, [o.action] + rest.1)
  }

  // ---- Properties ----

  /**
   * What the accumulator holds in each authoring state: the fields asked for
   * so far, and a date only as the date step writes it.
   */
  ghost predicate SessionInv(s: Session)
  {
    && (s.state == Some(EventDescription) ==> Title in s.data)
    && (s.state == Some(EventDate) ==> Title in s.data && Description in s.data)
    && (s.state == Some(EventPhoto) ==> Title in s.data && Description in s.data && Date in s.data)
    && (Date in s.data ==> s.data[Date].Some? && EventDates.IsWrittenDate(s.data[Date].value))
  }

  /** A handler bound to a state runs only in that state. */
  lemma StateHandlersRunInTheirState(state: Option<FormState>, m: Message)
    ensures Route(state, m) == ProcessMailing ==> state == Some(MailingMessage)
    ensures Route(state, m) == ProcessEventTitle ==> state == Some(EventTitle)
    ensures Route(state, m) == ProcessEventDescription ==> state == Some(EventDescription)
    ensures Route(state, m) == ProcessEventDate ==> state == Some(EventDate)
    ensures Route(state, m) == ProcessEventPhoto ==> state == Some(EventPhoto)
    ensures Route(state, m) == ProcessFeedback ==> state == Some(Feedback)
    ensures Route(state, m) == ProcessPhone <==> m.Contact? && TextOf(m) != Some(StartCommand)
  {
  }

  lemma RunHandlerKeepsSessionInv(h: Handler, s: Session, isAdmin: bool, m: Message)
    requires SessionInv(s)
    requires h == ProcessEventTitle ==> s.state == Some(EventTitle)
    requires h == ProcessEventDescription ==> s.state == Some(EventDescription)
    requires h == ProcessEventDate ==> s.state == Some(EventDate)
    ensures SessionInv(RunHandler(h, s, isAdmin, m).next)
  {
  }

  /** Every message keeps the accumulator invariant. */
  lemma StepKeepsSessionInv(s: Session, isAdmin: bool, m: Message)
    requires SessionInv(s)
    ensures SessionInv(Step(s, isAdmin, m).next)
  {
    StateHandlersRunInTheirState(s.state, m);
    RunHandlerKeepsSessionInv(Route(s.state, m), s, isAdmin, m);
  }

  /**
   * At the photo step the event's fields are always there: data['title'],
   * data['description'] and data['event_date'] never raise, and the stored
   * date is one the date step wrote.
   */
  lemma PhotoStepNeverRaises(s: Session, isAdmin: bool, m: Message)
    requires SessionInv(s) && Route(s.state, m) == ProcessEventPhoto
    ensures Step(s, isAdmin, m).action != Raise
    ensures Step(s, isAdmin, m).action.StoreEvent? ==> EventDates.IsWrittenDate(Step(s, isAdmin, m).action.eventDate)
  {
  }

  /** Whatever the step, an event it stores carries a date the date step wrote. */
  lemma StoredEventDateIsWritten(s: Session, isAdmin: bool, m: Message)
    requires SessionInv(s)
    ensures Step(s, isAdmin, m).action.StoreEvent? ==> EventDates.IsWrittenDate(Step(s, isAdmin, m).action.eventDate)
  {
    StateHandlersRunInTheirState(s.state, m);
  }

  /**
   * A non-operator's privileged commands: "/admin" gets the denial only;
   * statistics, broadcast start and event-authoring start get no answer. In
   * every case the context is unchanged and nothing is written.
   */
  lemma NonOperatorRefused(s: Session, m: Message)
    requires m == Text(AdminCommand) || m == Text(StatsButton) || m == Text(MailingButton) || m == Text(AddEventButton)
    requires s.state != Some(MailingMessage)
    ensures Step(s, false, m).next == s
    ensures !WritesLedger(Step(s, false, m).action)
    ensures Step(s, false, m).action == (if m == Text(AdminCommand) then Deny else Ignore)
  {
  }

  /**
   * The privileged commands reach their handlers in every state, except the
   * event-authoring button in the broadcast state, where it is taken as the
   * text to broadcast.
   */
  lemma PrivilegedRoutes(state: Option<FormState>)
    ensures Route(state, Text(AdminCommand)) == AdminPanel
    ensures Route(state, Text(StatsButton)) == ShowStats
    ensures Route(state, Text(MailingButton)) == StartMailing
    ensures Route(state, Text(AddEventButton)) ==
            if state == Some(MailingMessage) then ProcessMailing else StartAddingEvent
  {
  }

  /** Handlers without a state of their own leave the context as it was; none of them clears it. */
  lemma StatelessHandlersKeepSession(s: Session, isAdmin: bool, m: Message)
    requires Route(s.state, m) in {CmdStart, ProcessPhone, MarkVisit, ShowBonuses, ShowEvents, AdminPanel,
                                   ShowStats, BackToMainMenu, ShowContacts, NoHandler}
    ensures Step(s, isAdmin, m).next == s
  {
  }

  /** The states only an operator's own buttons lead into. */
  predicate OperatorState(state: Option<FormState>)
  {
    state == Some(MailingMessage) || state == Some(EventTitle) || state == Some(EventDescription)
    || state == Some(EventDate) || state == Some(EventPhoto)
  }

  /**
   * A user without operator rights who is not in an operator state stays out
   * of them, and none of their messages broadcasts, stores an event, shows
   * the statistics or opens the panel.
   */
  lemma NonOperatorStaysOut(s: Session, m: Message)
    requires !OperatorState(s.state)
    ensures !OperatorState(Step(s, false, m).next.state)
    ensures var a := Step(s, false, m).action; !a.Broadcast? && !a.StoreEvent? && a != StatsReport && a != Panel
  {
    StateHandlersRunInTheirState(s.state, m);
  }

  /** The Phone state is never entered. */
  lemma PhoneStateNeverEntered(s: Session, isAdmin: bool, m: Message)
    requires s.state != Some(Phone)
    ensures Step(s, isAdmin, m).next.state != Some(Phone)
  {
  }

  /** An operator starting a flow overwrites the state and keeps the accumulated data. */
  lemma OperatorStartsFlows(s: Session)
    requires s.state != Some(MailingMessage)
    ensures Step(s, true, Text(MailingButton)) == Outcome(Session(Some(MailingMessage), s.data), Ask(MailingMessage))
    ensures Step(s, true, Text(AddEventButton)) == Outcome(Session(Some(EventTitle), s.data), Ask(EventTitle))
  {
  }

  /** The title and description steps store the text and move on. */
  lemma TitleAndDescriptionSteps(s: Session, isAdmin: bool, t: string)
    requires !IsEarlyCommand(t)
    ensures s.state == Some(EventTitle) ==>
      Step(s, isAdmin, Text(t)) == Outcome(Session(Some(EventDescription), s.data[Title := Some(t)]), Ask(EventDescription))
    ensures s.state == Some(EventDescription) ==>
      Step(s, isAdmin, Text(t)) == Outcome(Session(Some(EventDate), s.data[Description := Some(t)]), Ask(EventDate))
  {
  }

  /**
   * The date step: a text that does not read as a date leaves state and data
   * as they were; one that does is stored as strftime writes it and moves on
   * to the photo.
   */
  lemma DateStep(s: Session, isAdmin: bool, t: string)
    requires s.state == Some(EventDate) && !IsEarlyCommand(t)
    ensures EventDates.ParseInput(t).None? ==> Step(s, isAdmin, Text(t)) == Outcome(s, Reask(EventDate))
    ensures EventDates.ParseInput(t).Some? ==>
      Step(s, isAdmin, Text(t)) ==
      Outcome(Session(Some(EventPhoto), s.data[Date := Some(EventDates.StoredText(EventDates.ParseInput(t).value))]),
              Ask(EventPhoto))
  {
    RoutesToDateStep(s, isAdmin, t);
    if EventDates.ParseInput(t).Some? {
      EventDates.NormalizedDateDisplays(t);
    }
  }

  /** In the date state a text that is not an earlier command goes to the date step. */
  lemma RoutesToDateStep(s: Session, isAdmin: bool, t: string)
    requires s.state == Some(EventDate) && !IsEarlyCommand(t)
    ensures Step(s, isAdmin, Text(t)) == EventDateStep(s, Text(t))
  {
    assert Route(s.state, Text(t)) == ProcessEventDate;
  }

  /**
   * A padded date "DD.MM.YYYY HH:MM" is stored as strftime writes it:
   * "YYYY-MM-DD HH:MM:00" for a four-digit year, a shorter year below 1000.
   */
  lemma DateStepNormalizes(s: Session, isAdmin: bool, dt: EventDates.DateTime)
    requires s.state == Some(EventDate)
    requires EventDates.ValidDateTime(dt) && dt.second == 0
    ensures Step(s, isAdmin, Text(EventDates.InputText(dt))) ==
      Outcome(Session(Some(EventPhoto), s.data[Date := Some(EventDates.StoredText(dt))]), Ask(EventPhoto))
  {
    var t := EventDates.InputText(dt);
    DigitTextIsNoCommand(t);
    RoutesToDateStep(s, isAdmin, t);
    EventDates.NormalizeAcceptsValidDates(dt);
  }

  /** Every command text starts with a character that is not a digit. */
  lemma DigitTextIsNoCommand(t: string)
    requires |t| > 0 && EventDates.IsDigit(t[0])
    ensures !IsEarlyCommand(t)
  {
  }

  /**
   * The photo step: the skip word in any letter case stores the event with no
   * photo, a photo stores it with its largest size, anything else stores
   * nothing and stays; storing clears state and data.
   */
  lemma PhotoStep(s: Session, isAdmin: bool, m: Message)
    requires s.state == Some(EventPhoto) && Route(s.state, m) == ProcessEventPhoto
    requires Title in s.data && Description in s.data && Date in s.data && s.data[Date].Some?
    ensures m.Text? && IsSkip(m.text) ==>
      Step(s, isAdmin, m) == Outcome(Idle, StoreEvent(s.data[Title], s.data[Description], s.data[Date].value, None))
    ensures m.Photo? && |m.sizes| > 0 ==>
      Step(s, isAdmin, m) == Outcome(Idle, StoreEvent(s.data[Title], s.data[Description], s.data[Date].value,
                                                      Some(m.sizes[|m.sizes| - 1])))
    ensures !(m.Text? && IsSkip(m.text)) && !(m.Photo? && |m.sizes| > 0) ==>
      Step(s, isAdmin, m) == Outcome(s, Reask(EventPhoto))
  {
  }

  /** The broadcast step sends the message's text and clears state and data. */
  lemma MailingStep(s: Session, isAdmin: bool, m: Message)
    requires Route(s.state, m) == ProcessMailing
    ensures Step(s, isAdmin, m) == Outcome(Idle, Broadcast(TextOf(m)))
  {
  }

  /**
   * A whole authoring flow by an operator: button, title, description, date,
   * skip. The event is stored with the texts given and the date in the
   * form the date step writes, and the context ends cleared.
   */
  lemma AuthoringFlow(s: Session, title: string, description: string, dt: EventDates.DateTime)
    requires s.state != Some(MailingMessage)
    requires !IsEarlyCommand(title) && !IsEarlyCommand(description)
    requires EventDates.ValidDateTime(dt) && dt.second == 0
    ensures Run(s, true, [Text(AddEventButton), Text(title), Text(description), Text(EventDates.InputText(dt)), Text("Пропустить")]) ==
      (Idle, [Ask(EventTitle), Ask(EventDescription), Ask(EventDate), Ask(EventPhoto),
              StoreEvent(Some(title), Some(description), EventDates.StoredText(dt), None)])
  {
    var rest := [Text(title), Text(description), Text(EventDates.InputText(dt)), Text("Пропустить")];
    var stored := StoreEvent(Some(title), Some(description), EventDates.StoredText(dt), None);
    OperatorStartsFlows(s);
    FlowFromTitle(s.data, title, description, dt);
    RunStep(s, true, Text(AddEventButton), rest);
    assert [Text(AddEventButton)] + rest ==
      [Text(AddEventButton), Text(title), Text(description), Text(EventDates.InputText(dt)), Text("Пропустить")];
    assert [Ask(EventTitle)] + [Ask(EventDescription), Ask(EventDate), Ask(EventPhoto), stored] ==
      [Ask(EventTitle), Ask(EventDescription), Ask(EventDate), Ask(EventPhoto), stored];
  }

  lemma FlowFromTitle(data: map<Field, Option<string>>, title: string, description: string, dt: EventDates.DateTime)
    requires !IsEarlyCommand(title) && !IsEarlyCommand(description)
    requires EventDates.ValidDateTime(dt) && dt.second == 0
    ensures Run(Session(Some(EventTitle), data), true,
                [Text(title), Text(description), Text(EventDates.InputText(dt)), Text("Пропустить")]) ==
      (Idle, [Ask(EventDescription), Ask(EventDate), Ask(EventPhoto),
              StoreEvent(Some(title), Some(description), EventDates.StoredText(dt), None)])
  {
    var s := Session(Some(EventTitle), data);
    var rest := [Text(description), Text(EventDates.InputText(dt)), Text("Пропустить")];
    var stored := StoreEvent(Some(title), Some(description), EventDates.StoredText(dt), None);
    TitleAndDescriptionSteps(s, true, title);
    FlowFromDescription(data[Title := Some(title)], description, dt);
    RunStep(s, true, Text(title), rest);
    assert [Text(title)] + rest == [Text(title), Text(description), Text(EventDates.InputText(dt)), Text("Пропустить")];
    assert [Ask(EventDescription)] + [Ask(EventDate), Ask(EventPhoto), stored] ==
      [Ask(EventDescription), Ask(EventDate), Ask(EventPhoto), stored];
  }

  lemma FlowFromDescription(data: map<Field, Option<string>>, description: string, dt: EventDates.DateTime)
    requires Title in data && !IsEarlyCommand(description)
    requires EventDates.ValidDateTime(dt) && dt.second == 0
    ensures Run(Session(Some(EventDescription), data), true,
                [Text(description), Text(EventDates.InputText(dt)), Text("Пропустить")]) ==
      (Idle, [Ask(EventDate), Ask(EventPhoto), StoreEvent(data[Title], Some(description), EventDates.StoredText(dt), None)])
  {
    var s := Session(Some(EventDescription), data);
    var rest := [Text(EventDates.InputText(dt)), Text("Пропустить")];
    var stored := StoreEvent(data[Title], Some(description), EventDates.StoredText(dt), None);
    TitleAndDescriptionSteps(s, true, description);
    FlowFromDate(data[Description := Some(description)], dt);
    RunStep(s, true, Text(description), rest);
    assert [Text(description)] + rest == [Text(description), Text(EventDates.InputText(dt)), Text("Пропустить")];
    assert [Ask(EventDate)] + [Ask(EventPhoto), stored] == [Ask(EventDate), Ask(EventPhoto), stored];
  }

  lemma FlowFromDate(data: map<Field, Option<string>>, dt: EventDates.DateTime)
    requires Title in data && Description in data
    requires EventDates.ValidDateTime(dt) && dt.second == 0
    ensures Run(Session(Some(EventDate), data), true, [Text(EventDates.InputText(dt)), Text("Пропустить")]) ==
      (Idle, [Ask(EventPhoto), StoreEvent(data[Title], data[Description], EventDates.StoredText(dt), None)])
  {
    var s := Session(Some(EventDate), data);
    var stored := StoreEvent(data[Title], data[Description], EventDates.StoredText(dt), None);
    DateStepNormalizes(s, true, dt);
    FlowFromPhoto(data[Date := Some(EventDates.StoredText(dt))]);
    RunStep(s, true, Text(EventDates.InputText(dt)), [Text("Пропустить")]);
    assert [Text(EventDates.InputText(dt))] + [Text("Пропустить")] == [Text(EventDates.InputText(dt)), Text("Пропустить")];
    assert [Ask(EventPhoto)] + [stored] == [Ask(EventPhoto), stored];
  }

  lemma FlowFromPhoto(data: map<Field, Option<string>>)
    requires Title in data && Description in data && Date in data && data[Date].Some?
    ensures Run(Session(Some(EventPhoto), data), true, [Text("Пропустить")]) ==
      (Idle, [StoreEvent(data[Title], data[Description], data[Date].value, None)])
  {
    var s := Session(Some(EventPhoto), data);
    var stored := StoreEvent(data[Title], data[Description], data[Date].value, None);
    SkipInAnyCase();
    assert Step(s, true, Text("Пропустить")) == Outcome(Idle, stored);
    assert Run(Idle, true, []) == (Idle, []);
    RunStep(s, true, Text("Пропустить"), []);
    assert [Text("Пропустить")] + [] == [Text("Пропустить")];
    assert [stored] + [] == [stored];
  }

  /** Running a message sequence is running its first message, then the rest. */
  lemma RunStep(s: Session, isAdmin: bool, m: Message, ms: seq<Message>)
    ensures Run(s, isAdmin, [m] + ms) ==
      (Run(Step(s, isAdmin, m).next, isAdmin, ms).0, [Step(s, isAdmin, m).action] + Run(Step(s, isAdmin, m).next, isAdmin, ms).1)
  {
    assert ([m] + ms)[1..] == ms;
  }

  /**
   * A broadcast started in the middle of authoring abandons it: the state is
   * overwritten, and the next text is broadcast rather than taken as the
   * description.
   */
  lemma BroadcastAbandonsAuthoring(data: map<Field, Option<string>>, t: string)
    requires !IsEarlyCommand(t)
    ensures Run(Session(Some(EventDescription), data), true, [Text(MailingButton), Text(t)]) ==
      (Idle, [Ask(MailingMessage), Broadcast(Some(t))])
  {
    var s1 := Session(Some(MailingMessage), data);
    assert Step(Session(Some(EventDescription), data), true, Text(MailingButton)) == Outcome(s1, Ask(MailingMessage));
    assert Step(s1, true, Text(t)) == Outcome(Idle, Broadcast(Some(t)));
    assert Run(Idle, true, []) == (Idle, []);
    RunStep(s1, true, Text(t), []);
    assert [Text(t)] + [] == [Text(t)];
    assert [Broadcast(Some(t))] + [] == [Broadcast(Some(t))];
    assert Run(s1, true, [Text(t)]) == (Idle, [Broadcast(Some(t))]);
    RunStep(Session(Some(EventDescription), data), true, Text(MailingButton), [Text(t)]);
    assert [Text(MailingButton)] + [Text(t)] == [Text(MailingButton), Text(t)];
    assert [Ask(MailingMessage)] + [Broadcast(Some(t))] == [Ask(MailingMessage), Broadcast(Some(t))];
  }

  /**
   * The feedback button, registered after the authoring steps, does not
   * abandon an authoring flow: in the description state its text becomes the
   * description.
   */
  lemma FeedbackButtonTakenAsDescription(data: map<Field, Option<string>>, isAdmin: bool)
    ensures Step(Session(Some(EventDescription), data), isAdmin, Text(FeedbackButton)) ==
      Outcome(Session(Some(EventDate), data[Description := Some(FeedbackButton)]), Ask(EventDate))
  {
  }
}
