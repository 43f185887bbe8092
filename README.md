# Travel-agency WhatsApp bot: dialogue engine, follow-ups and lead store

This project models the core of a WhatsApp chat bot for a travel agency and
proves properties of that model. The bot does three things:

- It runs a per-customer dialogue keyed by phone number. There is a main menu
  and three flows:
  - a quote questionnaire, steps 10 to 19 and 40;
  - after-sales support, steps 20 to 22;
  - direct contact with an attendant, step 30.
- It sends two follow-up reminders after a quote, one after 30 minutes and one
  after 24 hours. A reminder goes out only while the customer is silent and
  the quote's lead is still "Novo".
- It keeps an append-only store of lead records. The store can be read and
  updated by identifier or phone, and ranked by destination and travel type.

Modules:

- `Options`: the `Option` type.
- `Text`: `String.prototype.trim` with the ECMAScript white-space set,
  `toLowerCase`, and a string's `length` in UTF-16 code units.
- `Numbers`: `parseInt(s, 10)` and `String(n)`, and the round trip between
  them.
- `Leads`: lead records as maps from property name to scalar value.
  - `saveLead` builds the record by spreading the caller's data over the
    defaults.
  - `LeadStore` is a class whose `leads` field is the sequence of stored
    records.
  - It holds the lookups, the three update operations and the rankings.
- `Conversation`: the dialogue's constants, the session and its answers, and
  the step table.
  - The step table is the pure function `Transition`: it maps a step, the
    session's answers and a message to an `Effect`.
  - Lemmas state the table row by row, and the invariant `SessionOk` that
    every reachable session satisfies.
- `FollowUps`: the follow-up record, and the decision a firing reminder takes
  against the store.
- `Handler`: `handleMessage` itself.
  - `Respond` is its specification as a function of the two maps: sessions by
    phone and follow-ups by phone.
  - Class `Bot` holds those two maps as fields. Its methods change them in
    place and are proved equal to `Respond`.
  - `Consistent` is the invariant of the two maps: every session is well
    formed, and a follow-up exists only for a phone with no session.
- `Findings`: the two plain-object lookups as the source writes them (see
  Findings below).

Three behaviours of the code are worth knowing:

- When writing the lead file fails, `saveLead` returns null. The customer
  then gets the closing reply with protocol "N/A", and no follow-up is armed.
- The names of `Object.prototype` members pass the menus at steps 18, 21, 30
  and 40 (see Findings).
- When the closing reply of a support request throws, the session has
  already been deleted and the lead saved. In `Consistent` states this case
  is unreachable.

## Model

| member | source | states |
|---|---|---|
| Text.StartOfSkips | handleMessage.js:174 | the start of the trimmed message is past a run of white space and at a non-white character or the end |
| Text.EndOfSkips | handleMessage.js:174 | the end of the trimmed message is before a run of white space and after a non-white character or the start |
| Text.TrimSpec | handleMessage.js:174 | `trim` keeps an infix of the message that neither starts nor ends with white space, and everything it cuts away is white space |
| Text.TrimIdempotent | handleMessage.js:174 | trimming a trimmed message changes nothing |
| Text.LowerChar | handleMessage.js:175 | an ASCII or Latin-1 capital becomes its lower-case letter, 32 code points on; every other character is unchanged |
| Text.ToLower | handleMessage.js:175 | lower-casing maps each character by `LowerChar` and keeps the length |
| Text.ToLowerIdempotent | handleMessage.js:175 | lower-casing a lower-cased message changes nothing |
| Text.Utf16Length | handleMessage.js:235 | `raw.length` is between the number of characters and twice it, and equals it exactly when no character is outside the Basic Multilingual Plane |
| Numbers.DigitPrefix | handleMessage.js:267 | `parseInt` reads the longest run of leading digits, and stops at the first non-digit |
| Numbers.NatToString | handleMessage.js:269 | `String(n)` is a non-empty string of digits without a leading zero, except for 0 itself |
| Numbers.IntToString | handleMessage.js:342 | `String(n)` starts with a minus sign exactly when n is negative |
| Numbers.IntToStringDigits | handleMessage.js:342 | after the optional minus sign, `String(n)` is the shortest decimal digits of \|n\|, with no leading zero unless n is 0 |
| Numbers.DigitsValueOfNatToString | handleMessage.js:269 | the decimal digits of `String(n)` have the value n |
| Numbers.DigitPrefixOfDigits | handleMessage.js:267 | a string of digits is read in full |
| Numbers.TrimStartOfDigit | handleMessage.js:267 | `parseInt` skips no white space before a leading digit |
| Numbers.ParseIntNatToString | handleMessage.js:267-269 | `parseInt(String(n), 10)` is n for every n ≥ 0, so the stored passenger count reads back as the number typed |
| Leads.OrDefault | database.js:31-33 | `x \|\| d` is x when x is truthy and d otherwise |
| Leads.Lift | database.js:34 | the answers keep their keys, each value becoming a string scalar |
| Leads.BuildLead | database.js:28-37 | the record's keys are the caller's keys plus id, phone, status, tipo_atendimento, notes, created_at and updated_at |
| Leads.BuildLeadFields | database.js:28-37 | the caller's keys override id, phone, status, service type and notes; those default to the supplied id, the phone, "Novo", "Orçamento" and ""; both timestamps are always the supplied time |
| Leads.FindIndex | database.js:81 | the index found carries the identifier and no earlier record does; None exactly when no record carries it |
| Leads.FilterByPhone | database.js:75 | a record is returned exactly when it is stored with that phone |
| Leads.FilterByPhoneAppend | database.js:75 | filtering keeps store order across a concatenation |
| Leads.FindIndexAppend | database.js:39 | appending a record never changes what an existing identifier finds, and a fresh identifier finds the appended record |
| Leads.Patch | database.js:84-85 | an update assigns its fields on one record and leaves every other record as it was |
| Leads.PatchKeepsFindIndex | database.js:84-85 | writing fields other than `id` never moves a lookup by identifier |
| Leads.DistinctKeysComplete | database.js:154-157 | a key is in the tally exactly when some record contributes it |
| Leads.DistinctKeysDistinct | database.js:154-157 | no key is tallied twice |
| Leads.SortByCount | database.js:158 | the sort by count is non-increasing and a permutation of its input |
| Leads.SliceEnd | database.js:159 | `slice(0, limit)` keeps min(limit, length) rows for a non-negative limit |
| Leads.RankingOfTally | database.js:153-160 | the ranked tally has one row per key with a positive count, each with its true count, non-increasing |
| Leads.TopRows | database.js:159 | a leading slice of the ranking is still true and ranked, and no key it leaves out outnumbers a key it keeps |
| Leads.LeadStore.constructor | database.js:11 | a new store is empty |
| Leads.LeadStore.SaveLead | database.js:24-62 | appends exactly the built record and returns it; when the write fails it stores nothing and returns null |
| Leads.LeadStore.GetLeadById | database.js:68-71 | the first record carrying the identifier; absent exactly when none does |
| Leads.LeadStore.GetLeadsByPhone | database.js:73-76 | exactly the records with that phone |
| Leads.LeadStore.Update | database.js:78-92 | an unknown identifier or a failed write returns null and leaves the store unchanged; otherwise only the first matching record gets the fields |
| Leads.LeadStore.UpdateLeadStatus | database.js:78-92 | only the first matching record's status and updated_at change |
| Leads.LeadStore.UpdateLeadAssignment | database.js:94-111 | only the first matching record's three attendant fields and updated_at change |
| Leads.LeadStore.UpdateLeadNotes | database.js:113-128 | only the first matching record's notes and updated_at change |
| Leads.LeadStore.Tally | database.js:153-158 | one row per distinct truthy value of the field, each with its true count, non-increasing, and every value present |
| Leads.LeadStore.GetTopDestinations | database.js:151-161 | at most `limit` rows (the source defaults `limit` to 5, which is how the program calls it), true counts, non-increasing, no duplicates, and no unlisted destination outnumbers a listed one |
| Leads.LeadStore.GetTopTravelTypes | database.js:163-172 | every travel type with its true count, non-increasing, each once |
| Leads.AssignmentFields | database.js:100-103 | the three attendant fields are `attendant?.nome \|\| ""`, `attendant?.id \|\| ""` and `attendant?.numero \|\| ""`, and updated_at is the supplied time |
| Leads.NotesValue | database.js:119 | notes are `String(notes)` for a truthy argument, and "" exactly for a missing or falsy one |
| Conversation.AttendantByOption | handleMessage.js:113-116 | an attendant is found exactly for "1", "2" and "3", and it is `ATTENDANTS[opt-1]` |
| Conversation.FindAttendant | handleMessage.js:368 | the attendant found is on the roster with that id; none is found only when no attendant has that id |
| Conversation.TripType | handleMessage.js:226-228 | a trip type exists exactly for "1", "2" and "3" |
| Conversation.Preference | handleMessage.js:292-299 | a preference exists exactly for "1" to "5" |
| Conversation.TripTypeStored | handleMessage.js:225-229 | step 10 stores "Somente Aéreo", "Aéreo + Hotel" or "Pacote Completo" for options 1 to 3, and no two options share a label |
| Conversation.FlexibilityStored | handleMessage.js:258-261 | step 14 stores "Datas fixas" for option 1 and "Pode flexibilizar (+/- 3 dias)" for option 2 |
| Conversation.PreferenceStored | handleMessage.js:291-303 | step 18 stores each option's accommodation label and stamps the request with the local time |
| Conversation.PreferenceLabelsDistinct | handleMessage.js:292-298 | no two accommodation options share a label |
| Conversation.LeadData | handleMessage.js:325-332 | the keys are exactly the answers' property names, each holding its answer |
| Conversation.StepTable | handleMessage.js:202-413 | an answer is rejected exactly when the step's validator refuses it, and the same step is asked again; unknown steps and a declined summary restart; "2" at step 20 closes; flows complete exactly at steps 22, 30 and 40 on an accepted answer |
| Conversation.AdvanceWritesStepFields | handleMessage.js:204-364 | an accepted answer writes exactly its step's fields, keeps every other answer, stores free text as typed, and moves to the next step |
| Conversation.PassengerCount | handleMessage.js:266-272 | step 15 accepts exactly a `parseInt` of 1 to 50; it stores `String(n)`, the decimal digits of n without a leading zero, which read back as the same number |
| Conversation.FinishRecordsFlow | handleMessage.js:321-408 | each completed flow records its status and service type and the attendant picked (for support, the one from step 21); quote and direct leads hold that attendant's name, id and number; a support lead holds the issue text |
| Conversation.QuoteCollectsEverything | handleMessage.js:225-306 | a quote reaching step 40 has answered the whole questionnaire |
| Conversation.CollectedAdvance | handleMessage.js:204-364 | along each flow, the next step's answers are this step's plus what it writes |
| Conversation.QuoteLeadKeeps | handleMessage.js:325-332 | the quote lead keeps every questionnaire answer |
| Conversation.SupportLeadKeeps | handleMessage.js:370-376 | the support lead keeps the flow tag and the attendant from step 21 |
| Conversation.TransitionKeepsSessionOk | handleMessage.js:202-413 | every transition keeps a session well formed; a completed flow always has its attendant; quote and support leads carry every answer |
| Conversation.QuoteLeadComplete | handleMessage.js:325-332 | a completed quote's lead holds every questionnaire answer and the quote's flow tag |
| FollowUps.MarkSent | handleMessage.js:54-55 | a delivered reminder sets its own flag only |
| FollowUps.StillNewIff | handleMessage.js:36 | a lead is still new exactly when its status is missing, falsy or "Novo" |
| FollowUps.NewLeadCanFollowUp | handleMessage.js:33-37 | right after a "Novo" lead is appended, its follow-up can go out unless an older lead has the same identifier |
| FollowUps.StatusDecides | handleMessage.js:33-37 | after a status update, follow-ups go on exactly when the new status is falsy or "Novo" |
| FollowUps.OtherUpdatesKeep | database.js:94-128 | assignment and notes updates change no follow-up decision |
| Handler.ProtocolOfSave | handleMessage.js:342 | the protocol `lead?.id \|\| "N/A"` is the store's identifier in decimal, or "N/A" when the write failed or the identifier is 0 |
| Handler.StepReplies | handleMessage.js:204-408 | a step of a well-formed session sends a closing reply exactly when it completes a flow, and never the apology; the completed flow names the attendant picked at step 21, 30 or 40 |
| Handler.ProceedReplies | handleMessage.js:321-408 | a completed flow gets its own closing reply, naming its attendant and the protocol |
| Handler.ClosingReply | handleMessage.js:321-408 | in a consistent state no message gets the apology; a closing reply is sent exactly when a flow completes at step 22, 30 or 40, and a lead is saved exactly when that reply goes out and the write succeeds; the reply names the flow, the attendant recorded in the lead, and the saved identifier as protocol, or "N/A" when nothing was saved |
| Handler.StoredAnswers | handleMessage.js:325-334 | the saved lead has the store's id, the sender's phone and every answer under its property name |
| Handler.NotReserved | handleMessage.js:325-334 | no answer is stored under id, phone or a timestamp |
| Handler.SavedLeadId | handleMessage.js:338 | `lead?.id` of a saved lead is the id the store was given |
| Handler.NextSessionOk | handleMessage.js:199-318 | a step that does not complete a flow leaves a well-formed session, if any |
| Handler.ProceedKeepsConsistent | handleMessage.js:202-413 | applying a step's effect keeps the handler state consistent |
| Handler.RespondKeepsConsistent | handleMessage.js:173-415 | every message keeps the handler state consistent: sessions well formed, follow-ups only for silent phones with a truthy lead id |
| Handler.RespondTouchesOnlySender | handleMessage.js:173-415 | a message changes only its own phone's session and follow-up |
| Handler.ProceedTouchesOnlySender | handleMessage.js:202-413 | a step's effect changes only its own phone's session and follow-up |
| Handler.RespondIgnoresPadding | handleMessage.js:174-175 | a message and its trimmed form are handled alike |
| Handler.CommandsAtAnyStep | handleMessage.js:178-197 | at any step, a cancel command removes the session and the follow-up and acknowledges; a menu command or a first message leaves one step-1 session with no answers and shows the menu; neither saves anything |
| Handler.RejectedAnswerAsksAgain | handleMessage.js:199-413 | a refused answer keeps the step and the answers, refreshes the timestamp, saves nothing and asks the same step again |
| Handler.FollowUpOnlyAfterQuote | handleMessage.js:321-343 | after a message a follow-up exists exactly when the message completed a quote at step 40, the lead was saved and its id is truthy; it starts with neither reminder sent |
| Handler.QuoteCompletes | handleMessage.js:321-343 | a quote completes exactly at step 40 on an accepted option |
| Handler.ProceedSchedules | handleMessage.js:334-340 | a completed quote whose lead was saved with a truthy id arms a fresh follow-up, and nothing else arms one |
| Handler.FinishedLead | handleMessage.js:321-408 | a completed flow's lead has the store's id, the phone, the flow's status and service type, and the name, id and number of the attendant picked at step 30 or 40 (at step 21 for support); quote and support leads hold every answer |
| Handler.LeadOfFinish | handleMessage.js:325-334 | the built record of a completed flow holds its fixed fields, the attendant's name, id and number, and the session's answers |
| Handler.ProceedSaves | handleMessage.js:334 | a lead is saved exactly when a flow completes and the write succeeds |
| Handler.SavedLeadRecordsFlow | handleMessage.js:321-408 | a message saves a lead only when it completes a flow at step 22, 30 or 40 and the write succeeds; the lead records the flow's status and service type, the name, id and number of the attendant chosen by the message (for support, the one stored at step 21), and the answers |
| Handler.ScheduledFollowUpFindsLead | handleMessage.js:33-37 | an armed follow-up is about the lead just saved, and its check finds that lead still new unless an older lead has the same id |
| Handler.NewQuoteLeadCanFollowUp | handleMessage.js:33-37 | a freshly appended quote lead passes the follow-up check unless its id was already taken |
| Handler.Bot.constructor | handleMessage.js:16 | a new handler has no sessions and no follow-ups |
| Handler.Bot.CancelFollowUps | handleMessage.js:18-24 | the phone's follow-up is removed if present, and nothing else changes |
| Handler.Bot.ScheduleFollowUps | handleMessage.js:26-86 | nothing happens for a missing or falsy id; otherwise exactly one fresh record replaces any earlier one |
| Handler.Bot.FireReminder | handleMessage.js:39-83 | a reminder sends nothing without a record, when already sent, or while the customer is in a dialogue; it drops the record when the lead is gone or not "Novo"; otherwise it sends and sets only its own flag; in a consistent state the customer is never found in a dialogue |
| Handler.Bot.EndSession | handleMessage.js:338-340 | a completed quote arms follow-ups for a truthy id; the session is deleted |
| Handler.Bot.Complete | handleMessage.js:334-342 | a completed flow saves its lead, arms follow-ups for a quote, deletes the session and replies |
| Handler.Bot.Continue | handleMessage.js:202-413 | applying a step's effect in place agrees with `Proceed` and keeps the state consistent |
| Handler.Bot.Apply | handleMessage.js:199-318 | a step that does not complete a flow updates or deletes only the phone's session |
| Handler.Bot.HandleMessage | handleMessage.js:173-415 | the in-place handler leaves exactly the sessions, follow-ups, reply and stored leads that `Respond` specifies, and keeps the state consistent |
| Handler.Bot.Command | handleMessage.js:180-197 | a cancel command deletes the session; a menu command or a first message starts a fresh one |
| Handler.Bot.Dispatch | handleMessage.js:199-202 | the step table applied in place agrees with `Proceed` |
| Findings.AttendantLookupAccepts | handleMessage.js:113-116 | the lookup as written accepts exactly the menu options and the inherited names, and agrees with the corrected lookup on the options |
| Findings.PreferenceLookupAccepts | handleMessage.js:292-299 | the same for the accommodation menu |
| Findings.NoCapitals | handleMessage.js:175 | lower-casing leaves no ASCII capital |
| Findings.ReachableInheritedKeys | handleMessage.js:175 | after lower-casing, only "constructor" and "__proto__" of the inherited names can be typed |
| Findings.ConstructorPicksNoAttendant | handleMessage.js:321-323 | "constructor" passes the attendant test as written but reads no attendant; the corrected step asks again |
| Findings.ConstructorIsAPreference | handleMessage.js:299-301 | "constructor" passes the preference test as written; the corrected step asks again |

## Left out

- Sending messages: `sendLeadToAttendant`, `client.sendMessage` and `getNumberId`. These are transport calls. Their failures are caught, and they change no state the model holds.
- Message texts: the menus, prompts, error messages and the quote summary. A reply is modelled by its kind, its step, its attendant and its protocol.
- Real timers: `setTimeout`, `clearTimeout`, the two delays, and the async interleaving of timers with messages. Each timer body is the method `Handler.Bot.FireReminder`, called explicitly. Whether the send succeeds is its `delivered` parameter.
- Clocks: `Date.now()` and the ISO and `pt-BR` renderings of the time are parameters of `HandleMessage` (`now`, `leadId`, `isoNow`, `localeNow`).
  - The protocol `lead?.id || Date.now()` passed to the attendant notification is left out with the notification.
- Files: `readDB` and `writeDB`, and the JSON format on disk. The store is the sequence `LeadStore.leads`. A failing write is the `persisted` parameter. A corrupt file that reads back as `[]` is not modelled.
- The email, Excel and Google Sheets exports fired from `saveLead`. They are fire-and-forget calls into code that is not part of this model.
- `getLeads`: it returns the whole store, which is the field `LeadStore.leads` itself.
- `getLeadsStats`: it depends on wall-clock date arithmetic.
- `server.js` (HTTP routes over the store) and `bot.js` (client wiring).
  - From `bot.js` the model keeps only one fact: when handling a message throws, the customer gets the apology.
- `users.js` is not part of this model. Sessions are a map field of `Handler.Bot`.
- In-place mutation of the session object: a session is a value that the handler replaces in the map. Nothing else holds a reference to a session, so aliasing is not observable.
- The timestamp refresh before a completing step (handleMessage.js:200). The completed session is deleted in the same call, so the refresh cannot be observed.
- Handler.Bot.FireReminder: runs as one atomic step. In the source, the timer marks its reminder as sent after `await client.sendMessage` returns (handleMessage.js:50-55, 73-78), by writing back the record it read before the await. A message that arrives during that await cancels the phone's follow-up, and may complete a new quote that arms a new one. The write-back then restores the stale record: it revives a cancelled follow-up, or overwrites the new quote's record so that the new quote's first reminder is suppressed. The model does not show this interleaving.
- Stored values: a lead's property values are modelled as strings and integers only (`Leads.Value`). The HTTP routes of `server.js` can pass booleans, null, fractional numbers or objects to `updateLeadStatus` and `updateLeadNotes`, and those are not represented.
- Text.ToLower: lower-cases ASCII and Latin-1 capitals only. Other scripts, and the special cases of the Unicode case mapping, are not modelled.
- Leads.LeadStore.Tally: keys are counted as own map keys. The source's plain-object counter mishandles a destination or travel type named after an `Object.prototype` member; for example `__proto__` is silently dropped. That behaviour is not reproduced.
- Leads.LeadStore.Tally: among equal counts the model keeps first-occurrence order. `Object.entries` lists integer-like keys first. No contract here states an order among ties.

## Findings

| source | as written | input that shows it | evidently intended | confidence | as-written member | corrected member |
|---|---|---|---|---|---|---|
| handleMessage.js:113-116 | `map[opt] \|\| null` on an object literal also finds the members of `Object.prototype` | the answer "constructor" at step 40, 21 or 30: the lookup returns the `Object` function. The quote is saved without attendant fields and the reply names `undefined`; at step 22 the reply then throws | only "1", "2" and "3" pick an attendant, and anything else is asked again | not executed | Findings.ConstructorPicksNoAttendant | Conversation.AttendantByOption |
| handleMessage.js:291-301 | `if (!prefMap[msg])` accepts the members of `Object.prototype` | the answer "constructor" (or "__proto__") at step 18: the `Object` function is stored as the preference and the quote moves on to step 19 | only "1" to "5" are accepted, and anything else is asked again | not executed | Findings.ConstructorIsAPreference | Conversation.Preference |
