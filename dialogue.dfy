/** The message handler: the session of every customer phone, the pending
    follow-ups, and the one operation that consumes an inbound message. */
module Handler {
  import opened Options
  import opened Text
  import opened Conversation
  import opened Leads
  import opened FollowUps

  /** The reply that closes a completed flow: it names the attendant and the
      protocol, `lead?.id || "N/A"`. Without an attendant, building it
      throws, and the customer gets the apology instead. */
  function FinishReply(flow: FlowKind, attendant: Option<Attendant>, protocol: Option<string>): (r: Reply)
    ensures attendant.None? <==> r == Apology
    ensures attendant.Some? ==> r == match flow
      case Quote => QuoteSent(attendant.value, protocol)
      case Support => SupportForwarded(attendant.value, protocol)
      case Direct => DirectContact(attendant.value, protocol)
  {
    match attendant
    case None => Apology
    case Some(a) =>
      match flow
      case Quote => QuoteSent(a, protocol)
      case Support => SupportForwarded(a, protocol)
      case Direct => DirectContact(a, protocol)
  }

  /** `lead?.id`: the identifier of the saved record, if one was saved. */
  function SavedId(saved: Option<Lead>): Option<Value> {
    if saved.Some? && "id" in saved.value then Some(saved.value["id"]) else None
  }

  /** `lead?.id || "N/A"`, with None standing for "N/A". */
  function Protocol(saved: Option<Lead>): Option<string> {
    var id := SavedId(saved);
    if id.Some? && Truthy(id.value) then Some(ValueToString(id.value)) else None
  }

  /** The replies that close a completed flow. */
  predicate Closing(r: Reply) {
    r.QuoteSent? || r.SupportForwarded? || r.DirectContact?
  }

  /** The protocol of a completed flow is the store's identifier written in
      decimal, or "N/A" when the write failed or the identifier is 0. */
  lemma ProtocolOfSave(phone: string, answers: Answers, leadId: int, isoNow: string, persisted: bool)
    ensures Protocol(if persisted then Some(BuildLead(phone, LeadData(answers), leadId, isoNow)) else None) ==
            if persisted && leadId != 0 then Some(Numbers.IntToString(leadId)) else None
  {
    if persisted {
      SavedLeadId(phone, answers, leadId, isoNow);
    }
  }

  /** The lead saved for a completed flow holds the store's identifier, the
      sender's phone, and every answer under its property name: no answer is
      stored under "id", "phone" or the two timestamps. */
  lemma StoredAnswers(phone: string, answers: Answers, id: int, isoNow: string)
    ensures var lead := BuildLead(phone, LeadData(answers), id, isoNow);
      && Get(lead, "id") == Some(Num(id)) && Get(lead, "phone") == Some(Str(phone))
      && (forall f :: f in answers ==> Get(lead, Name(f)) == Some(Str(answers[f])))
  {
    var data := LeadData(answers);
    var lead := BuildLead(phone, data, id, isoNow);
    BuildLeadFields(phone, data, id, isoNow);
    forall f | f in answers ensures Get(lead, Name(f)) == Some(Str(answers[f])) {
      NotReserved(f);
      assert Name(f) in data && data[Name(f)] == answers[f];
    }
    forall f ensures Name(f) != "id" && Name(f) != "phone" {
      NotReserved(f);
    }
    assert "id" !in data && "phone" !in data;
  }

  /** No answer's property name is one `saveLead` sets itself. */
  lemma NotReserved(f: Field)
    ensures Name(f) != "id" && Name(f) != "phone" && Name(f) != "created_at" && Name(f) != "updated_at"
  {
    NameInjective(f);
  }

  /** A saved lead carries the identifier the store was given. */
  lemma SavedLeadId(phone: string, answers: Answers, id: int, isoNow: string)
    ensures SavedId(Some(BuildLead(phone, LeadData(answers), id, isoNow))) == Some(Num(id))
  {
    StoredAnswers(phone, answers, id, isoNow);
  }

  /** The trimmed message, `(message || "").trim()`. */
  function Raw(message: Option<string>): string {
    Trim(if message.Some? then message.value else "")
  }

  /** The session a step leaves for the phone, its timestamp refreshed, or
      None when the step deletes it; completed flows are handled apart. */
  function NextSession(s: Session, e: Effect, now: int): Option<Session>
    requires !e.Finish?
  {
    match e
    case Stay(_) => Some(s.(timestamp := now))
    case Advance(step, data, _) => Some(Session(step, data, now))
    case Restart => Some(Session(1, map[], now))
    case Close(_) => None
  }

  /** The reply of a step that does not complete a flow. */
  function StepReply(e: Effect): Reply
    requires !e.Finish?
  {
    if e.Restart? then Menu else e.reply
  }

  lemma NextSessionOk(s: Session, e: Effect, now: int)
    requires SessionOk(s) && !e.Finish?
    requires e.Advance? ==> SessionOk(Session(e.step, e.data, now))
    ensures var next := NextSession(s, e, now); next.Some? ==> SessionOk(next.value)
  {
  }

  /** Every session is one the dialogue can build, and a follow-up is
      pending only for a phone that is not in a dialogue, about a truthy
      lead identifier. */
  ghost predicate Consistent(users: map<string, Session>, followUps: map<string, FollowUp>) {
    && (forall p :: p in users ==> SessionOk(users[p]))
    && (forall p :: p in followUps ==> p !in users && Truthy(followUps[p].leadId))
  }

  /** What one inbound message does: the new sessions and follow-ups, the
      lead it saved, if any, and the reply. */
  datatype Response = Response(users: map<string, Session>, followUps: map<string, FollowUp>,
                               saved: Option<Lead>, reply: Reply)

  /** The records a saved lead appends to the store. */
  function Appended(saved: Option<Lead>): seq<Lead> {
    if saved.Some? then [saved.value] else []
  }

  /** The effect `e` of a step on the session of `phone`, whose follow-up is
      already cancelled. A completed flow saves its lead when `persisted`
      holds, schedules the follow-ups of a quote under the saved identifier,
      and deletes the session. */
  function Proceed(users: map<string, Session>, followUps: map<string, FollowUp>, phone: string,
                   e: Effect, now: int, leadId: int, isoNow: string, persisted: bool): Response
    requires phone in users
  {
    if !e.Finish? then
      var next := NextSession(users[phone], e, now);
      Response(if next.Some? then users[phone := next.value] else users - {phone},
               followUps, None, StepReply(e))
    else
      var saved := if persisted then Some(BuildLead(phone, LeadData(e.lead), leadId, isoNow)) else None;
      Response(users - {phone},
               if e.flow == Quote && persisted && leadId != 0
               then followUps[phone := FollowUp(Num(leadId), false, false)]
               else followUps,
               saved, FinishReply(e.flow, e.attendant, Protocol(saved)))
  }

  /** `handleMessage(phone, message, client)` on the handler's state. */
  function Respond(users: map<string, Session>, followUps: map<string, FollowUp>, phone: string,
                   message: Option<string>, now: int, leadId: int, isoNow: string,
                   localeNow: string, persisted: bool): Response
  {
    RespondTo(users, followUps, phone, Raw(message), now, leadId, isoNow, localeNow, persisted)
  }

  /** The handling of the trimmed message `raw`: any message first cancels
      the phone's follow-ups; a cancel command ends the dialogue, a menu
      command or a first message starts it over, and anything else goes
      through the step table. Commands are matched lower-cased. */
  function RespondTo(users: map<string, Session>, followUps: map<string, FollowUp>, phone: string,
                     raw: string, now: int, leadId: int, isoNow: string,
                     localeNow: string, persisted: bool): Response
  {
    var msg := ToLower(raw);
    var rest := followUps - {phone};
    if msg in CancelCommands then
      Response(users - {phone}, rest, None, Cancelled)
    else if msg in MenuCommands || phone !in users then
      Response(users[phone := Session(1, map[], now)], rest, None, Menu)
    else
      var s := users[phone];
      Proceed(users, rest, phone, Transition(s.step, s.data, raw, msg, localeNow),
              now, leadId, isoNow, persisted)
  }

  /** A message that is no command, from a phone in a dialogue, goes
      through the step table. */
  lemma RespondSteps(users: map<string, Session>, followUps: map<string, FollowUp>, phone: string,
                     message: Option<string>, now: int, leadId: int, isoNow: string,
                     localeNow: string, persisted: bool)
    requires phone in users
    requires ToLower(Raw(message)) !in CancelCommands && ToLower(Raw(message)) !in MenuCommands
    ensures var s := users[phone]; var raw := Raw(message);
      Respond(users, followUps, phone, message, now, leadId, isoNow, localeNow, persisted) ==
      Proceed(users, followUps - {phone}, phone, Transition(s.step, s.data, raw, ToLower(raw), localeNow),
              now, leadId, isoNow, persisted)
  {
  }

  /** A command, or a first message, never reaches the step table. */
  lemma RespondCommand(users: map<string, Session>, followUps: map<string, FollowUp>, phone: string,
                       message: Option<string>, now: int, leadId: int, isoNow: string,
                       localeNow: string, persisted: bool)
    requires var msg := ToLower(Raw(message));
      msg in CancelCommands || msg in MenuCommands || phone !in users
    ensures Respond(users, followUps, phone, message, now, leadId, isoNow, localeNow, persisted) ==
      if ToLower(Raw(message)) in CancelCommands
      then Response(users - {phone}, followUps - {phone}, None, Cancelled)
      else Response(users[phone := Session(1, map[], now)], followUps - {phone}, None, Menu)
  {
  }

  lemma ProceedKeepsConsistent(users: map<string, Session>, followUps: map<string, FollowUp>, phone: string,
                               e: Effect, now: int, leadId: int, isoNow: string, persisted: bool)
    requires Consistent(users, followUps) && phone in users && phone !in followUps
    requires e.Advance? ==> SessionOk(Session(e.step, e.data, now))
    ensures var r := Proceed(users, followUps, phone, e, now, leadId, isoNow, persisted);
      Consistent(r.users, r.followUps)
  {
    var r := Proceed(users, followUps, phone, e, now, leadId, isoNow, persisted);
    if e.Finish? {
      ConsistentWithout(users, followUps, phone);
      if e.flow == Quote && persisted && leadId != 0 {
        ConsistentScheduled(users - {phone}, followUps, phone, Num(leadId));
      }
    } else {
      var next := NextSession(users[phone], e, now);
      NextSessionOk(users[phone], e, now);
      if next.Some? {
        ConsistentWith(users, followUps, phone, next.value);
      } else {
        ConsistentWithout(users, followUps, phone);
      }
    }
  }

  lemma ConsistentWith(users: map<string, Session>, followUps: map<string, FollowUp>, phone: string, s: Session)
    requires Consistent(users, followUps) && phone !in followUps && SessionOk(s)
    ensures Consistent(users[phone := s], followUps)
  {
  }

  lemma ConsistentCancelled(users: map<string, Session>, followUps: map<string, FollowUp>, phone: string)
    requires Consistent(users, followUps)
    ensures Consistent(users, followUps - {phone})
  {
  }

  lemma ConsistentWithout(users: map<string, Session>, followUps: map<string, FollowUp>, phone: string)
    requires Consistent(users, followUps)
    ensures Consistent(users - {phone}, followUps)
  {
  }

  lemma ConsistentScheduled(users: map<string, Session>, followUps: map<string, FollowUp>, phone: string, id: Value)
    requires Consistent(users, followUps) && phone !in users && Truthy(id)
    ensures Consistent(users, followUps[phone := FollowUp(id, false, false)])
  {
  }

  /** Every message keeps the handler's state consistent. */
  lemma RespondKeepsConsistent(users: map<string, Session>, followUps: map<string, FollowUp>, phone: string,
                               message: Option<string>, now: int, leadId: int, isoNow: string,
                               localeNow: string, persisted: bool)
    requires Consistent(users, followUps)
    ensures var r := Respond(users, followUps, phone, message, now, leadId, isoNow, localeNow, persisted);
      Consistent(r.users, r.followUps)
  {
    var raw := Raw(message);
    var msg := ToLower(raw);
    ConsistentCancelled(users, followUps, phone);
    if msg in CancelCommands || msg in MenuCommands || phone !in users {
      RespondCommand(users, followUps, phone, message, now, leadId, isoNow, localeNow, persisted);
      if msg in CancelCommands {
        ConsistentWithout(users, followUps - {phone}, phone);
      } else {
        ConsistentWith(users, followUps - {phone}, phone, Session(1, map[], now));
      }
    } else {
      var s := users[phone];
      RespondSteps(users, followUps, phone, message, now, leadId, isoNow, localeNow, persisted);
      TransitionKeepsSessionOk(s, raw, msg, localeNow, now);
      ProceedKeepsConsistent(users, followUps - {phone}, phone, Transition(s.step, s.data, raw, msg, localeNow),
                             now, leadId, isoNow, persisted);
    }
  }

  /** A message changes nothing but the sender's own session and follow-up. */
  lemma RespondTouchesOnlySender(users: map<string, Session>, followUps: map<string, FollowUp>, phone: string,
                                 message: Option<string>, now: int, leadId: int, isoNow: string,
                                 localeNow: string, persisted: bool)
    ensures var r := Respond(users, followUps, phone, message, now, leadId, isoNow, localeNow, persisted);
      r.users - {phone} == users - {phone} && r.followUps - {phone} == followUps - {phone}
  {
    var r := Respond(users, followUps, phone, message, now, leadId, isoNow, localeNow, persisted);
    var msg := ToLower(Raw(message));
    if msg in CancelCommands || msg in MenuCommands || phone !in users {
      RespondCommand(users, followUps, phone, message, now, leadId, isoNow, localeNow, persisted);
    } else {
      RespondSteps(users, followUps, phone, message, now, leadId, isoNow, localeNow, persisted);
      var s := users[phone];
      var e := Transition(s.step, s.data, Raw(message), msg, localeNow);
      ProceedTouchesOnlySender(users, followUps - {phone}, phone, e, now, leadId, isoNow, persisted);
    }
  }

  lemma ProceedTouchesOnlySender(users: map<string, Session>, followUps: map<string, FollowUp>, phone: string,
                                 e: Effect, now: int, leadId: int, isoNow: string, persisted: bool)
    requires phone in users
    ensures var r := Proceed(users, followUps, phone, e, now, leadId, isoNow, persisted);
      r.users - {phone} == users - {phone} && r.followUps - {phone} == followUps - {phone}
  {
    if e.Finish? {
      assert (users - {phone}) - {phone} == users - {phone};
    }
  }

  /** The message is trimmed first: surrounding whitespace never changes
      what it does. */
  lemma RespondIgnoresPadding(users: map<string, Session>, followUps: map<string, FollowUp>, phone: string,
                              message: Option<string>, now: int, leadId: int, isoNow: string,
                              localeNow: string, persisted: bool)
    ensures Respond(users, followUps, phone, Some(Raw(message)), now, leadId, isoNow, localeNow, persisted) ==
            Respond(users, followUps, phone, message, now, leadId, isoNow, localeNow, persisted)
  {
    TrimIdempotent(if message.Some? then message.value else "");
  }

  /** The commands work at every step: cancelling ends the dialogue, and the
      menu command, like a first message, starts it over; neither saves
      anything, and both drop the phone's follow-up. */
  lemma CommandsAtAnyStep(users: map<string, Session>, followUps: map<string, FollowUp>, phone: string,
                          message: Option<string>, now: int, leadId: int, isoNow: string,
                          localeNow: string, persisted: bool)
    ensures var r := Respond(users, followUps, phone, message, now, leadId, isoNow, localeNow, persisted);
      var msg := ToLower(Raw(message));
      && (msg in CancelCommands ==>
            phone !in r.users && phone !in r.followUps && r.saved.None? && r.reply == Cancelled)
      && (msg !in CancelCommands && (msg in MenuCommands || phone !in users) ==>
            phone in r.users && r.users[phone] == Session(1, map[], now) && phone !in r.followUps &&
            r.saved.None? && r.reply == Menu)
  {
    var msg := ToLower(Raw(message));
    if msg in CancelCommands {
      assert Respond(users, followUps, phone, message, now, leadId, isoNow, localeNow, persisted) ==
             Response(users - {phone}, followUps - {phone}, None, Cancelled);
    } else if msg in MenuCommands || phone !in users {
      assert Respond(users, followUps, phone, message, now, leadId, isoNow, localeNow, persisted) ==
             Response(users[phone := Session(1, map[], now)], followUps - {phone}, None, Menu);
    }
  }

  /** An answer the step refuses leaves the session at its step with its
      answers, refreshes its timestamp and asks again; nothing is saved. */
  lemma RejectedAnswerAsksAgain(users: map<string, Session>, followUps: map<string, FollowUp>, phone: string,
                                message: Option<string>, now: int, leadId: int, isoNow: string,
                                localeNow: string, persisted: bool)
    requires var msg := ToLower(Raw(message));
      && msg !in CancelCommands && msg !in MenuCommands && phone in users
      && users[phone].step in Steps && !Accepts(users[phone].step, Raw(message), msg)
    ensures var r := Respond(users, followUps, phone, message, now, leadId, isoNow, localeNow, persisted);
      var s := users[phone];
      && r.users == users[phone := Session(s.step, s.data, now)]
      && r.followUps == followUps - {phone} && r.saved.None? && r.reply == Invalid(s.step)
  {
    var raw := Raw(message);
    var s := users[phone];
    RespondSteps(users, followUps, phone, message, now, leadId, isoNow, localeNow, persisted);
    StepTable(s.step, s.data, raw, ToLower(raw), localeNow);
  }

  /** Follow-ups are pending after a message exactly when it completed a
      quote at step 40, the lead was saved, and its identifier is truthy;
      they then start with neither reminder sent. */
  lemma FollowUpOnlyAfterQuote(users: map<string, Session>, followUps: map<string, FollowUp>, phone: string,
                               message: Option<string>, now: int, leadId: int, isoNow: string,
                               localeNow: string, persisted: bool)
    ensures var r := Respond(users, followUps, phone, message, now, leadId, isoNow, localeNow, persisted);
      var raw := Raw(message); var msg := ToLower(raw);
      && (phone in r.followUps <==>
            && msg !in CancelCommands && msg !in MenuCommands && phone in users
            && users[phone].step == 40 && Accepts(40, raw, msg) && persisted && leadId != 0)
      && (phone in r.followUps ==> r.followUps[phone] == FollowUp(Num(leadId), false, false) && r.saved.Some?)
  {
    var raw := Raw(message);
    var msg := ToLower(raw);
    if msg in CancelCommands {
      assert Respond(users, followUps, phone, message, now, leadId, isoNow, localeNow, persisted) ==
             Response(users - {phone}, followUps - {phone}, None, Cancelled);
    } else if msg in MenuCommands || phone !in users {
      assert Respond(users, followUps, phone, message, now, leadId, isoNow, localeNow, persisted) ==
             Response(users[phone := Session(1, map[], now)], followUps - {phone}, None, Menu);
    } else {
      var s := users[phone];
      RespondSteps(users, followUps, phone, message, now, leadId, isoNow, localeNow, persisted);
      QuoteCompletes(s.step, s.data, raw, msg, localeNow);
      ProceedSchedules(users, followUps - {phone}, phone, Transition(s.step, s.data, raw, msg, localeNow),
                       now, leadId, isoNow, persisted);
    }
  }

  /** A step completes a quote exactly at step 40 on an accepted option. */
  lemma QuoteCompletes(step: int, data: Answers, raw: string, msg: string, localeNow: string)
    ensures var e := Transition(step, data, raw, msg, localeNow);
      e.Finish? && e.flow == Quote <==> step == 40 && Accepts(40, raw, msg)
  {
    StepTable(step, data, raw, msg, localeNow);
    FinishRecordsFlow(step, data, raw, msg, localeNow);
  }

  lemma ProceedSchedules(users: map<string, Session>, followUps: map<string, FollowUp>, phone: string,
                         e: Effect, now: int, leadId: int, isoNow: string, persisted: bool)
    requires phone in users && phone !in followUps
    ensures var r := Proceed(users, followUps, phone, e, now, leadId, isoNow, persisted);
      && (phone in r.followUps <==> e.Finish? && e.flow == Quote && persisted && leadId != 0)
      && (phone in r.followUps ==> r.followUps[phone] == FollowUp(Num(leadId), false, false) && r.saved.Some?)
  {
  }

  /** The lead a completed flow saves, whatever the step that completed it. */
  lemma FinishedLead(s: Session, raw: string, msg: string, localeNow: string,
                     phone: string, leadId: int, isoNow: string)
    requires SessionOk(s)
    ensures var e := Transition(s.step, s.data, raw, msg, localeNow);
      e.Finish? ==>
        var lead := BuildLead(phone, LeadData(e.lead), leadId, isoNow);
        && s.step in {22, 30, 40}
        && e.flow == (if s.step == 40 then Quote else if s.step == 22 then Support else Direct)
        && e.attendant == (if s.step == 22 then AttendantOf(s.data) else AttendantByOption(msg))
        && Get(lead, "id") == Some(Num(leadId)) && Get(lead, "phone") == Some(Str(phone))
        && Get(lead, Name(Status)) == Some(Str(StatusOf(e.flow)))
        && Get(lead, Name(TipoAtendimento)) == Some(Str(ServiceOf(e.flow)))
        && e.attendant.Some?
        && Get(lead, Name(AtendenteNome)) == Some(Str(e.attendant.value.name))
        && Get(lead, Name(AtendenteId)) == Some(Str(e.attendant.value.id))
        && Get(lead, Name(AtendenteNumero)) == Some(Str(e.attendant.value.number))
        && (e.flow != Direct ==> forall f :: f in s.data ==> Get(lead, Name(f)) == Some(Str(s.data[f])))
  {
    var e := Transition(s.step, s.data, raw, msg, localeNow);
    if e.Finish? {
      StepTable(s.step, s.data, raw, msg, localeNow);
      FinishRecordsFlow(s.step, s.data, raw, msg, localeNow);
      TransitionKeepsSessionOk(s, raw, msg, localeNow, 0);
      if e.flow == Support {
        assert Records(s.data, e.attendant.value);
        assert AtendenteNome in s.data && AtendenteId in s.data && AtendenteNumero in s.data;
      }
      LeadOfFinish(s.data, e.flow, e.lead, e.attendant, phone, leadId, isoNow);
    }
  }

  lemma LeadOfFinish(data: Answers, flow: FlowKind, answers: Answers, attendant: Option<Attendant>,
                     phone: string, leadId: int, isoNow: string)
    requires Status in answers && answers[Status] == StatusOf(flow)
    requires TipoAtendimento in answers && answers[TipoAtendimento] == ServiceOf(flow)
    requires attendant.Some? && Records(answers, attendant.value)
    requires flow != Direct ==> forall k :: k in data ==> k in answers && answers[k] == data[k]
    ensures var lead := BuildLead(phone, LeadData(answers), leadId, isoNow);
      && Get(lead, "id") == Some(Num(leadId)) && Get(lead, "phone") == Some(Str(phone))
      && Get(lead, Name(Status)) == Some(Str(StatusOf(flow)))
      && Get(lead, Name(TipoAtendimento)) == Some(Str(ServiceOf(flow)))
      && Get(lead, Name(AtendenteNome)) == Some(Str(attendant.value.name))
      && Get(lead, Name(AtendenteId)) == Some(Str(attendant.value.id))
      && Get(lead, Name(AtendenteNumero)) == Some(Str(attendant.value.number))
      && (flow != Direct ==> forall f :: f in data ==> Get(lead, Name(f)) == Some(Str(data[f])))
  {
    var lead := BuildLead(phone, LeadData(answers), leadId, isoNow);
    StoredAnswers(phone, answers, leadId, isoNow);
    if flow != Direct {
      forall f | f in data ensures Get(lead, Name(f)) == Some(Str(data[f])) {
        assert f in answers && answers[f] == data[f];
      }
    }
  }

  lemma ProceedSaves(users: map<string, Session>, followUps: map<string, FollowUp>, phone: string,
                     e: Effect, now: int, leadId: int, isoNow: string, persisted: bool)
    requires phone in users
    ensures var r := Proceed(users, followUps, phone, e, now, leadId, isoNow, persisted);
      && (r.saved.Some? <==> e.Finish? && persisted)
      && (r.saved.Some? ==> r.saved.value == BuildLead(phone, LeadData(e.lead), leadId, isoNow))
  {
  }

  /** A message saves a lead only when it completes a flow at step 40, 22 or
      30 and the file is written. The lead has the store's identifier, the
      sender's phone, the flow's status and service type, and the name, id
      and number of the attendant picked at that step (for support, at step 21);
      a quote or support lead also holds every answer of the session. */
  lemma SavedLeadRecordsFlow(users: map<string, Session>, followUps: map<string, FollowUp>, phone: string,
                             message: Option<string>, now: int, leadId: int, isoNow: string,
                             localeNow: string, persisted: bool)
    requires Consistent(users, followUps)
    ensures var r := Respond(users, followUps, phone, message, now, leadId, isoNow, localeNow, persisted);
      r.saved.Some? ==>
        && persisted && phone in users && users[phone].step in {22, 30, 40}
        && var s := users[phone];
           var flow := if s.step == 40 then Quote else if s.step == 22 then Support else Direct;
           var lead := r.saved.value;
           && Get(lead, "id") == Some(Num(leadId)) && Get(lead, "phone") == Some(Str(phone))
           && Get(lead, Name(Status)) == Some(Str(StatusOf(flow)))
           && Get(lead, Name(TipoAtendimento)) == Some(Str(ServiceOf(flow)))
           && (flow != Direct ==> forall f :: f in s.data ==> Get(lead, Name(f)) == Some(Str(s.data[f])))
           && var a := if s.step == 22 then AttendantOf(s.data) else AttendantByOption(ToLower(Raw(message)));
              && a.Some?
              && Get(lead, Name(AtendenteNome)) == Some(Str(a.value.name))
              && Get(lead, Name(AtendenteId)) == Some(Str(a.value.id))
              && Get(lead, Name(AtendenteNumero)) == Some(Str(a.value.number))
  {
    var raw := Raw(message);
    var msg := ToLower(raw);
    if msg in CancelCommands {
      assert Respond(users, followUps, phone, message, now, leadId, isoNow, localeNow, persisted) ==
             Response(users - {phone}, followUps - {phone}, None, Cancelled);
    } else if msg in MenuCommands || phone !in users {
      assert Respond(users, followUps, phone, message, now, leadId, isoNow, localeNow, persisted) ==
             Response(users[phone := Session(1, map[], now)], followUps - {phone}, None, Menu);
    } else {
      var s := users[phone];
      RespondSteps(users, followUps, phone, message, now, leadId, isoNow, localeNow, persisted);
      ProceedSaves(users, followUps - {phone}, phone, Transition(s.step, s.data, raw, msg, localeNow),
                   now, leadId, isoNow, persisted);
      FinishedLead(s, raw, msg, localeNow, phone, leadId, isoNow);
    }
  }

  /** A step of a well-formed session replies with a closing reply exactly
      when it completes a flow, and never with the apology: a completed
      flow always has its attendant. */
  lemma StepReplies(s: Session, raw: string, msg: string, localeNow: string)
    requires SessionOk(s)
    ensures var e := Transition(s.step, s.data, raw, msg, localeNow);
      && (!e.Finish? ==> !Closing(StepReply(e)) && StepReply(e) != Apology)
      && (e.Finish? ==>
            && s.step in {22, 30, 40}
            && e.flow == (if s.step == 40 then Quote else if s.step == 22 then Support else Direct)
            && e.attendant.Some?
            && e.attendant == (if s.step == 22 then AttendantOf(s.data) else AttendantByOption(msg)))
  {
    StepTable(s.step, s.data, raw, msg, localeNow);
    AdvanceWritesStepFields(s.step, s.data, raw, msg, localeNow);
    FinishedLead(s, raw, msg, localeNow, "", 0, "");
  }

  /** Applying a step's effect: a completed flow with an attendant gets the
      closing reply of its flow, naming that attendant and the protocol. */
  lemma ProceedReplies(users: map<string, Session>, followUps: map<string, FollowUp>, phone: string,
                       e: Effect, now: int, leadId: int, isoNow: string, persisted: bool)
    requires phone in users
    requires e.Finish? ==> e.attendant.Some?
    ensures var r := Proceed(users, followUps, phone, e, now, leadId, isoNow, persisted);
      && (!e.Finish? ==> r.reply == StepReply(e))
      && (e.Finish? ==>
            && Closing(r.reply)
            && (r.reply.QuoteSent? <==> e.flow == Quote)
            && (r.reply.SupportForwarded? <==> e.flow == Support)
            && r.reply.attendant == e.attendant.value
            && r.reply.protocol == if persisted && leadId != 0 then Some(Numbers.IntToString(leadId)) else None)
  {
    if e.Finish? {
      ProtocolOfSave(phone, e.lead, leadId, isoNow, persisted);
    }
  }

  /** In a consistent state no message gets the apology. A closing reply is
      sent exactly when a flow completes at step 22, 30 or 40, whether or
      not the lead is written, and a lead is saved exactly when a closing
      reply goes out and the write succeeds. The reply names the flow, the
      attendant recorded in the lead, and the protocol: the saved lead's
      identifier, or "N/A" when nothing was saved or the identifier is 0. */
  lemma ClosingReply(users: map<string, Session>, followUps: map<string, FollowUp>, phone: string,
                     message: Option<string>, now: int, leadId: int, isoNow: string,
                     localeNow: string, persisted: bool)
    requires Consistent(users, followUps)
    ensures var r := Respond(users, followUps, phone, message, now, leadId, isoNow, localeNow, persisted);
      && r.reply != Apology
      && (r.saved.Some? <==> Closing(r.reply) && persisted)
      && (Closing(r.reply) ==>
            && phone in users && users[phone].step in {22, 30, 40}
            && var s := users[phone];
               && (r.reply.QuoteSent? <==> s.step == 40)
               && (r.reply.SupportForwarded? <==> s.step == 22)
               && Some(r.reply.attendant) ==
                  (if s.step == 22 then AttendantOf(s.data) else AttendantByOption(ToLower(Raw(message))))
               && r.reply.protocol == if persisted && leadId != 0 then Some(Numbers.IntToString(leadId)) else None)
  {
    var raw := Raw(message);
    var msg := ToLower(raw);
    if msg in CancelCommands || msg in MenuCommands || phone !in users {
      RespondCommand(users, followUps, phone, message, now, leadId, isoNow, localeNow, persisted);
    } else {
      var s := users[phone];
      var e := Transition(s.step, s.data, raw, msg, localeNow);
      RespondSteps(users, followUps, phone, message, now, leadId, isoNow, localeNow, persisted);
      StepReplies(s, raw, msg, localeNow);
      ProceedReplies(users, followUps - {phone}, phone, e, now, leadId, isoNow, persisted);
      ProceedSaves(users, followUps - {phone}, phone, e, now, leadId, isoNow, persisted);
    }
  }

  /** The follow-up a completed quote schedules is about the lead it saved:
      the reminder's check finds that lead, still new, unless an older lead
      in the store has the same identifier. */
  lemma ScheduledFollowUpFindsLead(users: map<string, Session>, followUps: map<string, FollowUp>, phone: string,
                                   message: Option<string>, now: int, leadId: int, isoNow: string,
                                   localeNow: string, persisted: bool, leads: seq<Lead>)
    requires Consistent(users, followUps)
    ensures var r := Respond(users, followUps, phone, message, now, leadId, isoNow, localeNow, persisted);
      phone in r.followUps ==>
        && r.saved.Some? && r.followUps[phone].leadId == Num(leadId)
        && (CanFollowUp(leads + [r.saved.value], Num(leadId)) <==>
              FindIndex(leads, Num(leadId)).None? || CanFollowUp(leads, Num(leadId)))
  {
    var r := Respond(users, followUps, phone, message, now, leadId, isoNow, localeNow, persisted);
    FollowUpOnlyAfterQuote(users, followUps, phone, message, now, leadId, isoNow, localeNow, persisted);
    if phone in r.followUps {
      SavedLeadRecordsFlow(users, followUps, phone, message, now, leadId, isoNow, localeNow, persisted);
      NewQuoteLeadCanFollowUp(leads, r.saved.value, leadId);
    }
  }

  lemma NewQuoteLeadCanFollowUp(leads: seq<Lead>, lead: Lead, leadId: int)
    requires Get(lead, "id") == Some(Num(leadId)) && Get(lead, Name(Status)) == Some(Str(StatusOf(Quote)))
    ensures CanFollowUp(leads + [lead], Num(leadId)) <==>
            FindIndex(leads, Num(leadId)).None? || CanFollowUp(leads, Num(leadId))
  {
    assert Name(Status) == "status" && StatusOf(Quote) == "Novo";
    NewLeadCanFollowUp(leads, lead, Num(leadId));
  }

  class Bot {
    /** `users`: the session of each phone in a dialogue. */
    var users: map<string, Session>
    /** `followUps`: the pending follow-up of each phone. */
    var followUps: map<string, FollowUp>

    /** The handler's state is `Consistent`. */
    ghost predicate Valid()
      reads this
    {
      Consistent(users, followUps)
    }

    constructor ()
      ensures users == map[] && followUps == map[]
      ensures Valid()
    {
      users := map[];
      followUps := map[];
    }

    /** `cancelFollowUps(phone)`: drops the phone's follow-up, if any. */
    method CancelFollowUps(phone: string)
      modifies this
      ensures followUps == old(followUps) - {phone}
      ensures users == old(users)
    {
      if phone !in followUps {
        return;
      }
      followUps := followUps - {phone};
    }

    /** `scheduleFollowUps(phone, client, leadId)`: nothing for a falsy or
        missing identifier; otherwise a fresh record replaces any earlier one. */
    method ScheduleFollowUps(phone: string, leadId: Option<Value>)
      modifies this
      ensures leadId.None? || !Truthy(leadId.value) ==> followUps == old(followUps)
      ensures leadId.Some? && Truthy(leadId.value) ==>
        followUps == old(followUps)[phone := FollowUp(leadId.value, false, false)]
      ensures users == old(users)
    {
      if leadId.None? || !Truthy(leadId.value) {
        return;
      }
      CancelFollowUps(phone);
      followUps := followUps[phone := FollowUp(leadId.value, false, false)];
    }

    /** The body of the timer of reminder `which` for `phone`. `delivered`
        says whether `client.sendMessage` succeeded. */
    method FireReminder(which: Reminder, phone: string, store: LeadStore, delivered: bool)
      returns (outcome: Outcome)
      modifies this
      ensures users == old(users)
      ensures phone !in old(followUps) ==> outcome == NoRecord && followUps == old(followUps)
      ensures phone in old(followUps) ==>
        var cur := old(followUps)[phone];
        && (Sent(cur, which) ==> outcome == AlreadySent && followUps == old(followUps))
        && (!Sent(cur, which) && phone in users ==> outcome == Engaged && followUps == old(followUps))
        && (!Sent(cur, which) && phone !in users && !CanFollowUp(store.leads, cur.leadId) ==>
              outcome == LeadClosed && followUps == old(followUps) - {phone})
        && (!Sent(cur, which) && phone !in users && CanFollowUp(store.leads, cur.leadId) ==>
              if delivered then
                outcome == Delivered && followUps == old(followUps)[phone := MarkSent(cur, which)]
              else
                outcome == SendFailed && followUps == old(followUps))
      ensures old(Valid()) ==> Valid() && outcome != Engaged
    {
      if phone !in followUps || Sent(followUps[phone], which) {
        return if phone !in followUps then NoRecord else AlreadySent;
      }
      var cur := followUps[phone];
      if phone in users {
        return Engaged;
      }
      var lead := store.GetLeadById(cur.leadId);
      if lead.None? || !StillNew(lead.value) {
        CancelFollowUps(phone);
        return LeadClosed;
      }
      if !delivered {
        return SendFailed;
      }
      followUps := followUps[phone := MarkSent(cur, which)];
      outcome := Delivered;
    }

    /** What follows `saveLead` when a flow completes: for a quote,
        `scheduleFollowUps(phone, client, lead?.id)`; then the session is deleted. */
    method EndSession(phone: string, flow: FlowKind, savedId: Option<Value>)
      requires Valid() && phone !in followUps
      modifies this
      ensures Valid()
      ensures users == old(users) - {phone}
      ensures followUps ==
        if flow == Quote && savedId.Some? && Truthy(savedId.value)
        then old(followUps)[phone := FollowUp(savedId.value, false, false)]
        else old(followUps)
    {
      if flow == Quote {
        ScheduleFollowUps(phone, savedId);
      }
      users := users - {phone};
    }

    /** A completed flow: `saveLead`, then `EndSession`. */
    method Complete(phone: string, flow: FlowKind, lead: Answers, attendant: Option<Attendant>,
                    store: LeadStore, leadId: int, isoNow: string, persisted: bool)
      returns (reply: Reply)
      requires Valid() && phone !in followUps
      modifies this, store
      ensures Valid()
      ensures users == old(users) - {phone}
      ensures var saved := if persisted then Some(BuildLead(phone, LeadData(lead), leadId, isoNow)) else None;
        && store.leads == old(store.leads) + (if persisted then [saved.value] else [])
        && reply == FinishReply(flow, attendant, Protocol(saved))
      ensures followUps ==
        if flow == Quote && persisted && leadId != 0
        then old(followUps)[phone := FollowUp(Num(leadId), false, false)]
        else old(followUps)
    {
      var saved := store.SaveLead(phone, LeadData(lead), leadId, isoNow, persisted);
      if persisted {
        SavedLeadId(phone, lead, leadId, isoNow);
      }
      EndSession(phone, flow, SavedId(saved));
      reply := FinishReply(flow, attendant, Protocol(saved));
    }

    /** The effect `e` of the step table on the phone's session. */
    method Continue(phone: string, e: Effect, store: LeadStore, now: int,
                    leadId: int, isoNow: string, persisted: bool)
      returns (reply: Reply)
      requires Valid() && phone in users && phone !in followUps
      requires e.Advance? ==> SessionOk(Session(e.step, e.data, now))
      modifies this, store
      ensures Valid()
      ensures var r := Proceed(old(users), old(followUps), phone, e, now, leadId, isoNow, persisted);
        && users == r.users && followUps == r.followUps && reply == r.reply
        && store.leads == old(store.leads) + Appended(r.saved)
    {
      if e.Finish? {
        reply := Complete(phone, e.flow, e.lead, e.attendant, store, leadId, isoNow, persisted);
      } else {
        reply := Apply(phone, e, now);
      }
    }

    /** A step's effect other than completion on the phone's session. */
    method Apply(phone: string, e: Effect, now: int) returns (reply: Reply)
      requires Valid() && phone in users && phone !in followUps && !e.Finish?
      requires e.Advance? ==> SessionOk(Session(e.step, e.data, now))
      modifies this
      ensures Valid()
      ensures followUps == old(followUps)
      ensures var next := NextSession(old(users)[phone], e, now);
        users == if next.Some? then old(users)[phone := next.value] else old(users) - {phone}
      ensures reply == StepReply(e)
    {
      var next := NextSession(users[phone], e, now);
      NextSessionOk(users[phone], e, now);
      if next.Some? {
        users := users[phone := next.value];
      } else {
        users := users - {phone};
      }
      reply := StepReply(e);
    }

    /** `handleMessage(phone, message, client)`. `now` is `Date.now()` for the
        session timestamp, `leadId` the `Date.now()` a saved lead takes,
        `isoNow` and `localeNow` the two renderings of the current time, and
        `persisted` whether writing the lead file succeeds. */
    method HandleMessage(phone: string, message: Option<string>, store: LeadStore, now: int,
                         leadId: int, isoNow: string, localeNow: string, persisted: bool)
      returns (reply: Reply)
      requires Valid()
      modifies this, store
      ensures Valid()
      ensures var r := Respond(old(users), old(followUps), phone, message, now, leadId, isoNow, localeNow, persisted);
        && users == r.users && followUps == r.followUps && reply == r.reply
        && store.leads == old(store.leads) + Appended(r.saved)
    {
      var raw := Raw(message);
      var msg := ToLower(raw);
      CancelFollowUps(phone);
      if msg in CancelCommands || msg in MenuCommands || phone !in users {
        reply := Command(phone, msg, now);
      } else {
        reply := Dispatch(phone, raw, msg, store, now, leadId, isoNow, localeNow, persisted);
      }
    }

    /** The cancel and menu commands, and the first message of a phone. */
    method Command(phone: string, msg: string, now: int) returns (reply: Reply)
      requires Valid() && phone !in followUps
      modifies this
      ensures Valid() && followUps == old(followUps)
      ensures msg in CancelCommands ==> users == old(users) - {phone} && reply == Cancelled
      ensures msg !in CancelCommands ==> users == old(users)[phone := Session(1, map[], now)] && reply == Menu
    {
      if msg in CancelCommands {
        users := users - {phone};
        return Cancelled;
      }
      users := users[phone := Session(1, map[], now)];
      reply := Menu;
    }

    /** The step table on the phone's session. */
    method Dispatch(phone: string, raw: string, msg: string, store: LeadStore, now: int,
                    leadId: int, isoNow: string, localeNow: string, persisted: bool)
      returns (reply: Reply)
      requires Valid() && phone in users && phone !in followUps
      modifies this, store
      ensures Valid()
      ensures var s := old(users)[phone];
        var r := Proceed(old(users), old(followUps), phone, Transition(s.step, s.data, raw, msg, localeNow),
                         now, leadId, isoNow, persisted);
        && users == r.users && followUps == r.followUps && reply == r.reply
        && store.leads == old(store.leads) + Appended(r.saved)
    {
      var s := users[phone];
      var e := Transition(s.step, s.data, raw, msg, localeNow);
      TransitionKeepsSessionOk(s, raw, msg, localeNow, now);
      reply := Continue(phone, e, store, now, leadId, isoNow, persisted);
    }
  }
}
