/** The dialogue engine of the travel-agency chat bot: one session per
    customer phone advancing through a numeric step table, global cancel and
    menu commands, and lead creation when a flow completes. */
module Conversation {
  import opened Options
  import opened Text
  import opened Numbers

  // ---------------------------------------------------------------------------
  // Attendants and commands

  /** A human agent: identifier, display name and WhatsApp number. */
  datatype Attendant = Attendant(id: string, name: string, number: string)

  const Attendants: seq<Attendant> := [
    Attendant("milene", "Milene", "5562991989622"),
    Attendant("leane", "Leane", "5562999646094"),
    Attendant("danubia", "Danubia", "5562999967460")
  ]

  /** Messages that restart the dialogue at the main menu. */
  const MenuCommands: set<string> := {"menu", "inicio", "início", "reiniciar"}

  /** Messages that end the dialogue. */
  const CancelCommands: set<string> := {"cancelar", "cancela", "sair", "parar", "encerrar", "0"}

  /** The attendant menu: options "1", "2", "3". */
  const AttendantOptions: map<string, Attendant> :=
    map["1" := Attendants[0], "2" := Attendants[1], "3" := Attendants[2]]

  /** `getAttendantByOption(opt)`, reading only the menu's own options: the
      attendant at the 1-based menu position `opt`, if `opt` is one. */
  function AttendantByOption(opt: string): (r: Option<Attendant>)
    ensures r.Some? <==> opt in {"1", "2", "3"}
    ensures r.Some? ==> r.value == Attendants[opt[0] as int - '1' as int]
  {
    if opt in AttendantOptions then Some(AttendantOptions[opt]) else None
  }

  /** `ATTENDANTS.find(a => a.id === id)`. */
  function FindAttendant(list: seq<Attendant>, id: string): (r: Option<Attendant>)
    ensures r.Some? ==> r.value in list && r.value.id == id
    ensures r.None? ==> forall a :: a in list ==> a.id != id
  {
    if list == [] then None
    else if list[0].id == id then Some(list[0])
    else FindAttendant(list[1..], id)
  }

  /** Step 10's label for each of the three trip types. */
  function TripType(msg: string): (r: Option<string>)
    ensures r.Some? <==> msg in {"1", "2", "3"}
  {
    if msg == "1" then Some("Somente Aéreo")
    else if msg == "2" then Some("Aéreo + Hotel")
    else if msg == "3" then Some("Pacote Completo")
    else None
  }

  /** Step 18's label for each of the five accommodation preferences. */
  function Preference(msg: string): (r: Option<string>)
    ensures r.Some? <==> msg in {"1", "2", "3", "4", "5"}
  {
    if msg == "1" then Some("Econômica + hotel 3⭐ (com café)")
    else if msg == "2" then Some("Econômica + hotel 4⭐ (com café)")
    else if msg == "3" then Some("Econômica + hotel 5⭐ (com café)")
    else if msg == "4" then Some("Executiva + hotel 4/5⭐ (com café)")
    else if msg == "5" then Some("Quero sugestões")
    else None
  }

  // ---------------------------------------------------------------------------
  // Answers

  /** The keys the dialogue writes into a session's `data` and a lead's data. */
  datatype Field =
    | Flow | TipoViagem | Destino | CidadeSaida | Periodo | Flexibilidade
    | NumPassageiros | Idades | Orcamento | Preferencia | DataSolicitacao
    | AtendenteNome | AtendenteId | AtendenteNumero
    | Status | TipoAtendimento | InfoViagem

  /** The property name each field has in the stored record. */
  function Name(f: Field): string {
    match f
    case Flow => "flow"
    case TipoViagem => "tipo_viagem"
    case Destino => "destino"
    case CidadeSaida => "cidade_saida"
    case Periodo => "periodo"
    case Flexibilidade => "flexibilidade"
    case NumPassageiros => "num_passageiros"
    case Idades => "idades"
    case Orcamento => "orcamento"
    case Preferencia => "preferencia"
    case DataSolicitacao => "data_solicitacao"
    case AtendenteNome => "atendente_nome"
    case AtendenteId => "atendente_id"
    case AtendenteNumero => "atendente_numero"
    case Status => "status"
    case TipoAtendimento => "tipo_atendimento"
    case InfoViagem => "info_viagem"
  }

  /** The field a property name denotes, if any. */
  function FieldNamed(k: string): (r: Option<Field>)
    ensures r.Some? ==> Name(r.value) == k
  {
    if k == "flow" then Some(Flow)
    else if k == "tipo_viagem" then Some(TipoViagem)
    else if k == "destino" then Some(Destino)
    else if k == "cidade_saida" then Some(CidadeSaida)
    else if k == "periodo" then Some(Periodo)
    else if k == "flexibilidade" then Some(Flexibilidade)
    else if k == "num_passageiros" then Some(NumPassageiros)
    else if k == "idades" then Some(Idades)
    else if k == "orcamento" then Some(Orcamento)
    else if k == "preferencia" then Some(Preferencia)
    else if k == "data_solicitacao" then Some(DataSolicitacao)
    else if k == "atendente_nome" then Some(AtendenteNome)
    else if k == "atendente_id" then Some(AtendenteId)
    else if k == "atendente_numero" then Some(AtendenteNumero)
    else if k == "status" then Some(Status)
    else if k == "tipo_atendimento" then Some(TipoAtendimento)
    else if k == "info_viagem" then Some(InfoViagem)
    else None
  }

  /** Each field's property name names that field back. */
  lemma NameInjective(f: Field)
    ensures FieldNamed(Name(f)) == Some(f)
  {
    match f
    case Flow =>
    case TipoViagem =>
    case Destino =>
    case CidadeSaida =>
    case Periodo =>
    case Flexibilidade =>
    case NumPassageiros =>
    case Idades =>
    case Orcamento =>
    case Preferencia =>
    case DataSolicitacao =>
    case AtendenteNome =>
    case AtendenteId =>
    case AtendenteNumero =>
    case Status =>
    case TipoAtendimento =>
    case InfoViagem =>
  }

  /** Distinct fields have distinct property names. */
  lemma NamesDistinct()
    ensures forall f, g :: Name(f) == Name(g) ==> f == g
  {
    forall f, g | Name(f) == Name(g) ensures f == g {
      NameInjective(f);
      NameInjective(g);
    }
  }

  /** A session's `data`: the answers collected so far. */
  type Answers = map<Field, string>

  /** The answers as the plain object handed to `saveLead`. */
  function LeadData(m: Answers): (r: map<string, string>)
    ensures forall f :: f in m <==> Name(f) in r
    ensures forall f :: f in m ==> r[Name(f)] == m[f]
    ensures r.Keys == set f | f in m :: Name(f)
  {
    NamesDistinct();
    map f | f in m :: Name(f) := m[f]
  }

  /** The answers name the attendant `a`: its name, id and number. */
  predicate Records(data: Answers, a: Attendant) {
    && AtendenteNome in data && data[AtendenteNome] == a.name
    && AtendenteId in data && data[AtendenteId] == a.id
    && AtendenteNumero in data && data[AtendenteNumero] == a.number
  }

  /** The attendant a support session recorded at step 21, looked up by id. */
  function AttendantOf(data: Answers): Option<Attendant> {
    if AtendenteId in data then FindAttendant(Attendants, data[AtendenteId]) else None
  }

  // ---------------------------------------------------------------------------
  // Sessions, replies and the step table

  /** A customer's dialogue state: current step, collected answers and the
      time of the last inbound message. */
  datatype Session = Session(step: int, data: Answers, timestamp: int)

  /** The three sub-dialogues that end in a lead. */
  datatype FlowKind = Quote | Support | Direct

  /** What one step does with a message. */
  datatype Effect =
    | Stay(reply: Reply)                                // rejected; step and data unchanged
    | Advance(step: int, data: Answers, reply: Reply)   // fields written, next step
    | Restart                                           // fresh step-1 session, main menu
    | Close(reply: Reply)                               // session removed, nothing saved
    | Finish(flow: FlowKind, lead: Answers, attendant: Option<Attendant>)
                                                        // lead saved, session removed

  /** The reply returned for the transport to deliver, by kind; the texts
      themselves are not modelled. `protocol` is `lead?.id`, None for "N/A". */
  datatype Reply =
    | Cancelled                 // cancellation acknowledgment
    | Menu                      // the main menu
    | Invalid(step: int)        // the error for `step`, which is asked again
    | Prompt(step: int)         // the question of the step just entered
    | NotOurPurchase            // support is only for trips bought from the agency
    | QuoteSent(attendant: Attendant, protocol: Option<string>)
    | SupportForwarded(attendant: Attendant, protocol: Option<string>)
    | DirectContact(attendant: Attendant, protocol: Option<string>)
    | Apology                   // what the bot sends when handling a message throws

  /** The steps the dialogue defines. */
  const Steps: set<int> := {1, 10, 11, 12, 13, 14, 15, 16, 17, 18, 19, 20, 21, 22, 30, 40}

  /** Steps whose answer is free text kept as typed (trimmed). */
  const FreeTextSteps: set<int> := {11, 12, 13, 16, 17}

  /** The field each free-text step fills. */
  function FreeTextKey(step: int): Field
    requires step in FreeTextSteps
  {
    if step == 11 then Destino
    else if step == 12 then CidadeSaida
    else if step == 13 then Periodo
    else if step == 16 then Idades
    else Orcamento
  }

  const AttendantFields: set<Field> := {AtendenteNome, AtendenteId, AtendenteNumero}

  /** The validator of each step, as a table: which inputs move the dialogue on. */
  predicate Accepts(step: int, raw: string, msg: string) {
    if step in {1, 10, 21, 30, 40} then msg in {"1", "2", "3"}
    else if step in {14, 19, 20} then msg in {"1", "2"}
    else if step == 18 then msg in {"1", "2", "3", "4", "5"}
    else if step in FreeTextSteps then Utf16Length(raw) >= 2
    else if step == 22 then Utf16Length(raw) >= 3
    else if step == 15 then ValidCount(raw)
    else true
  }

  /** Step 15's check: `parseInt` reads a number from 1 to 50. */
  predicate ValidCount(raw: string) {
    ParseInt(raw).Some? && 1 <= ParseInt(raw).value <= 50
  }

  /** The fields each step writes when it accepts. */
  function Writes(step: int): set<Field> {
    if step == 1 then {Flow}
    else if step == 10 then {TipoViagem}
    else if step in FreeTextSteps then {FreeTextKey(step)}
    else if step == 14 then {Flexibilidade}
    else if step == 15 then {NumPassageiros}
    else if step == 18 then {Preferencia, DataSolicitacao}
    else if step == 21 then AttendantFields
    else {}
  }

  /** The step an accepted answer leads to. */
  function NextStep(step: int, msg: string): int {
    if step == 1 then (if msg == "1" then 10 else if msg == "2" then 20 else 30)
    else if step == 19 then 40
    else step + 1
  }

  /** The flow tag the main menu stores, for the steps of each flow. */
  function FlowName(step: int): string {
    if 10 <= step <= 19 || step == 40 then "orcamento"
    else if 20 <= step <= 22 then "pos_compra"
    else "contato_direto"
  }

  /** The status and service type each flow records on its lead. */
  function StatusOf(flow: FlowKind): string {
    match flow
    case Quote => "Novo"
    case Support => "Em atendimento"
    case Direct => "Contato direto"
  }

  function ServiceOf(flow: FlowKind): string {
    match flow
    case Quote => "Orçamento"
    case Support => "Pós-compra"
    case Direct => "Contato direto"
  }

  /** The lead data of a completed quote: every collected answer, then the
      status, service type and chosen attendant. */
  function QuoteLead(data: Answers, a: Attendant): Answers {
    data + map[
      Status := "Novo",
      TipoAtendimento := "Orçamento",
      AtendenteNome := a.name,
      AtendenteId := a.id,
      AtendenteNumero := a.number
    ]
  }

  /** The lead data of a completed support request. */
  function SupportLead(data: Answers, issue: string, localeNow: string): Answers {
    data + map[
      Status := "Em atendimento",
      TipoAtendimento := "Pós-compra",
      InfoViagem := issue,
      DataSolicitacao := localeNow
    ]
  }

  /** The lead data of a direct-contact request: fixed fields only. */
  function DirectLead(a: Attendant, localeNow: string): Answers {
    map[
      Status := "Contato direto",
      TipoAtendimento := "Contato direto",
      AtendenteNome := a.name,
      AtendenteId := a.id,
      AtendenteNumero := a.number,
      DataSolicitacao := localeNow,
      InfoViagem := "Cliente solicitou contato direto com a atendente."
    ]
  }

  /** Step 1, the main menu: picks the flow. */
  function MainMenu(data: Answers, msg: string): Effect {
    if msg == "1" then Advance(10, data[Flow := "orcamento"], Prompt(10))
    else if msg == "2" then Advance(20, data[Flow := "pos_compra"], Prompt(20))
    else if msg == "3" then Advance(30, data[Flow := "contato_direto"], Prompt(30))
    else Stay(Invalid(1))
  }

  /** Step 10: the kind of trip. */
  function ChooseTripType(data: Answers, msg: string): Effect {
    match TripType(msg)
    case Some(kind) => Advance(11, data[TipoViagem := kind], Prompt(11))
    case None => Stay(Invalid(10))
  }

  /** Steps 11, 12, 13, 16 and 17: a free-text answer of at least two code
      units, stored as typed. */
  function FreeText(step: int, data: Answers, raw: string): Effect
    requires step in FreeTextSteps
  {
    if Utf16Length(raw) < 2 then Stay(Invalid(step))
    else Advance(step + 1, data[FreeTextKey(step) := raw], Prompt(step + 1))
  }

  /** Step 14: fixed or flexible dates. */
  function ChooseFlexibility(data: Answers, msg: string): Effect {
    if msg == "1" then Advance(15, data[Flexibilidade := "Datas fixas"], Prompt(15))
    else if msg == "2" then Advance(15, data[Flexibilidade := "Pode flexibilizar (+/- 3 dias)"], Prompt(15))
    else Stay(Invalid(14))
  }

  /** Step 15: the number of travellers, 1 to 50, stored as `String(n)`. */
  function CountPassengers(data: Answers, raw: string): Effect {
    if !ValidCount(raw) then Stay(Invalid(15))
    else Advance(16, data[NumPassageiros := NatToString(ParseInt(raw).value)], Prompt(16))
  }

  /** Step 18: the accommodation preference; the request time is stamped. */
  function ChoosePreference(data: Answers, msg: string, localeNow: string): Effect {
    match Preference(msg)
    case Some(choice) => Advance(19, data[Preferencia := choice][DataSolicitacao := localeNow], Prompt(19))
    case None => Stay(Invalid(18))
  }

  /** Step 19: the summary is confirmed ("1") or declined back to the menu ("2"). */
  function ConfirmQuote(data: Answers, msg: string): Effect {
    if msg == "1" then Advance(40, data, Prompt(40))
    else if msg == "2" then Restart
    else Stay(Invalid(19))
  }

  /** Step 40: the attendant for the quote; completes the quote flow. */
  function PickQuoteAttendant(data: Answers, msg: string): Effect {
    match AttendantByOption(msg)
    case None => Stay(Invalid(40))
    case Some(a) => Finish(Quote, QuoteLead(data, a), Some(a))
  }

  /** Step 20: was the trip bought from the agency? */
  function ConfirmPurchase(data: Answers, msg: string): Effect {
    if msg == "1" then Advance(21, data, Prompt(21))
    else if msg == "2" then Close(NotOurPurchase)
    else Stay(Invalid(20))
  }

  /** Step 21: the attendant the trip was bought from. */
  function PickSupportAttendant(data: Answers, msg: string): Effect {
    match AttendantByOption(msg)
    case None => Stay(Invalid(21))
    case Some(a) =>
      Advance(22, data[AtendenteNome := a.name][AtendenteId := a.id][AtendenteNumero := a.number], Prompt(22))
  }

  /** Step 22: a summary of the issue, at least three code units; completes
      the support flow with the attendant stored at step 21. */
  function DescribeIssue(data: Answers, raw: string, localeNow: string): Effect {
    if Utf16Length(raw) < 3 then Stay(Invalid(22))
    else Finish(Support, SupportLead(data, raw, localeNow), AttendantOf(data))
  }

  /** Step 30: the attendant to talk to; completes the direct-contact flow. */
  function PickDirectAttendant(msg: string, localeNow: string): Effect {
    match AttendantByOption(msg)
    case None => Stay(Invalid(30))
    case Some(a) => Finish(Direct, DirectLead(a, localeNow), Some(a))
  }

  /** One step of `handleMessage` for a customer with a session at `step`
      holding `data`: `raw` is the trimmed message, `msg` its lower-cased
      form, `localeNow` the `toLocaleString("pt-BR")` timestamp. Any other
      step restarts the dialogue. */
  function Transition(step: int, data: Answers, raw: string, msg: string, localeNow: string): Effect {
    if step == 1 then MainMenu(data, msg)
    else if step == 10 then ChooseTripType(data, msg)
    else if step in FreeTextSteps then FreeText(step, data, raw)
    else if step == 14 then ChooseFlexibility(data, msg)
    else if step == 15 then CountPassengers(data, raw)
    else if step == 18 then ChoosePreference(data, msg, localeNow)
    else if step == 19 then ConfirmQuote(data, msg)
    else if step == 40 then PickQuoteAttendant(data, msg)
    else if step == 20 then ConfirmPurchase(data, msg)
    else if step == 21 then PickSupportAttendant(data, msg)
    else if step == 22 then DescribeIssue(data, raw, localeNow)
    else if step == 30 then PickDirectAttendant(msg, localeNow)
    else Restart
  }

  // ---------------------------------------------------------------------------
  // The step table, row by row

  /** How step `step` treats a message, given the effect `e` it has: whether
      it is rejected, restarts, closes or completes a flow. */
  ghost predicate TableRow(step: int, raw: string, msg: string, e: Effect) {
    && (e.Stay? <==> step in Steps && !Accepts(step, raw, msg))
    && (e.Stay? ==> e.reply == Invalid(step))
    && (e.Restart? <==> step !in Steps || (step == 19 && msg == "2"))
    && (e.Close? <==> step == 20 && msg == "2")
    && (e.Close? ==> e.reply == NotOurPurchase)
    && (e.Finish? <==> step in {22, 30, 40} && Accepts(step, raw, msg))
  }

  /** What an accepted answer at `step` writes and where it leads. */
  ghost predicate AdvanceRow(step: int, data: Answers, raw: string, msg: string, e: Effect) {
    e.Advance? ==>
      && e.step == NextStep(step, msg) && e.reply == Prompt(e.step)
      && e.data.Keys == data.Keys + Writes(step)
      && (forall k :: k in data && k !in Writes(step) ==> e.data[k] == data[k])
      && (step in FreeTextSteps ==> e.data[FreeTextKey(step)] == raw)
      && (step == 1 ==> e.data[Flow] == FlowName(e.step))
      && (step == 21 ==> AttendantByOption(msg).Some? && AttendantOf(e.data) == AttendantByOption(msg) &&
                         Records(e.data, AttendantByOption(msg).value))
  }

  /** Both rows of `step` hold for the effect `e`. */
  ghost predicate Row(step: int, data: Answers, raw: string, msg: string, e: Effect) {
    TableRow(step, raw, msg, e) && AdvanceRow(step, data, raw, msg, e)
  }

  lemma MainMenuRow(data: Answers, raw: string, msg: string)
    ensures Row(1, data, raw, msg, MainMenu(data, msg))
  {
  }

  lemma TripTypeRow(data: Answers, raw: string, msg: string)
    ensures Row(10, data, raw, msg, ChooseTripType(data, msg))
  {
  }

  lemma FreeTextRow(step: int, data: Answers, raw: string, msg: string)
    requires step in FreeTextSteps
    ensures Row(step, data, raw, msg, FreeText(step, data, raw))
  {
  }

  lemma FlexibilityRow(data: Answers, raw: string, msg: string)
    ensures Row(14, data, raw, msg, ChooseFlexibility(data, msg))
  {
  }

  lemma PassengersRow(data: Answers, raw: string, msg: string)
    ensures Row(15, data, raw, msg, CountPassengers(data, raw))
  {
    PassengersTableRow(data, raw, msg);
    if ValidCount(raw) {
      PassengersAdvanceRow(data, raw, msg, NatToString(ParseInt(raw).value));
    }
  }

  lemma PassengersTableRow(data: Answers, raw: string, msg: string)
    ensures TableRow(15, raw, msg, CountPassengers(data, raw))
  {
    assert Accepts(15, raw, msg) == ValidCount(raw);
  }

  lemma PassengersAdvanceRow(data: Answers, raw: string, msg: string, count: string)
    ensures AdvanceRow(15, data, raw, msg, Advance(16, data[NumPassageiros := count], Prompt(16)))
  {
    assert Writes(15) == {NumPassageiros};
  }

  lemma PreferenceRow(data: Answers, raw: string, msg: string, localeNow: string)
    ensures Row(18, data, raw, msg, ChoosePreference(data, msg, localeNow))
  {
  }

  lemma ConfirmRow(data: Answers, raw: string, msg: string)
    ensures Row(19, data, raw, msg, ConfirmQuote(data, msg))
  {
  }

  lemma QuoteAttendantRow(data: Answers, raw: string, msg: string)
    ensures Row(40, data, raw, msg, PickQuoteAttendant(data, msg))
  {
  }

  lemma PurchaseRow(data: Answers, raw: string, msg: string)
    ensures Row(20, data, raw, msg, ConfirmPurchase(data, msg))
  {
  }

  lemma SupportAttendantRow(data: Answers, raw: string, msg: string)
    ensures Row(21, data, raw, msg, PickSupportAttendant(data, msg))
  {
  }

  lemma IssueRow(data: Answers, raw: string, msg: string, localeNow: string)
    ensures Row(22, data, raw, msg, DescribeIssue(data, raw, localeNow))
  {
  }

  lemma DirectRow(data: Answers, raw: string, msg: string, localeNow: string)
    ensures Row(30, data, raw, msg, PickDirectAttendant(msg, localeNow))
  {
  }

  /** Every row of the step table, by cases on the step. */
  lemma Rows(step: int, data: Answers, raw: string, msg: string, localeNow: string)
    ensures Row(step, data, raw, msg, Transition(step, data, raw, msg, localeNow))
  {
    var e := Transition(step, data, raw, msg, localeNow);
    if step == 1 {
      assert e == MainMenu(data, msg);
      MainMenuRow(data, raw, msg);
    } else if step == 10 {
      assert e == ChooseTripType(data, msg);
      TripTypeRow(data, raw, msg);
    } else if step in FreeTextSteps {
      assert e == FreeText(step, data, raw);
      FreeTextRow(step, data, raw, msg);
    } else if step == 14 {
      assert e == ChooseFlexibility(data, msg);
      FlexibilityRow(data, raw, msg);
    } else if step == 15 {
      assert e == CountPassengers(data, raw);
      PassengersRow(data, raw, msg);
    } else if step == 18 {
      assert e == ChoosePreference(data, msg, localeNow);
      PreferenceRow(data, raw, msg, localeNow);
    } else if step == 19 {
      assert e == ConfirmQuote(data, msg);
      ConfirmRow(data, raw, msg);
    } else if step == 40 {
      assert e == PickQuoteAttendant(data, msg);
      QuoteAttendantRow(data, raw, msg);
    } else if step == 20 {
      assert e == ConfirmPurchase(data, msg);
      PurchaseRow(data, raw, msg);
    } else if step == 21 {
      assert e == PickSupportAttendant(data, msg);
      SupportAttendantRow(data, raw, msg);
    } else if step == 22 {
      assert e == DescribeIssue(data, raw, localeNow);
      IssueRow(data, raw, msg, localeNow);
    } else if step == 30 {
      assert e == PickDirectAttendant(msg, localeNow);
      DirectRow(data, raw, msg, localeNow);
    } else {
      assert e == Restart;
    }
  }

  /** The step table: an input is rejected exactly when the step's validator
      refuses it, and a rejection asks the same step again; unknown steps and
      a declined summary restart; "2" at step 20 closes the dialogue; the
      flows end at steps 40, 22 and 30 on an accepted answer. */
  lemma StepTable(step: int, data: Answers, raw: string, msg: string, localeNow: string)
    ensures var e := Transition(step, data, raw, msg, localeNow);
      && (e.Stay? <==> step in Steps && !Accepts(step, raw, msg))
      && (e.Stay? ==> e.reply == Invalid(step))
      && (e.Restart? <==> step !in Steps || (step == 19 && msg == "2"))
      && (e.Close? <==> step == 20 && msg == "2")
      && (e.Close? ==> e.reply == NotOurPurchase)
      && (e.Finish? <==> step in {22, 30, 40} && Accepts(step, raw, msg))
  {
    Rows(step, data, raw, msg, localeNow);
  }

  /** An accepted answer writes exactly the step's fields, keeps every other
      answer, and asks the next step's question. */
  lemma AdvanceWritesStepFields(step: int, data: Answers, raw: string, msg: string, localeNow: string)
    ensures var e := Transition(step, data, raw, msg, localeNow);
      e.Advance? ==>
        && e.step == NextStep(step, msg) && e.reply == Prompt(e.step)
        && e.data.Keys == data.Keys + Writes(step)
        && (forall k :: k in data && k !in Writes(step) ==> e.data[k] == data[k])
        && (step in FreeTextSteps ==> e.data[FreeTextKey(step)] == raw)
        && (step == 1 ==> e.data[Flow] == FlowName(e.step))
        && (step == 21 ==> AttendantByOption(msg).Some? && AttendantOf(e.data) == AttendantByOption(msg) &&
                           Records(e.data, AttendantByOption(msg).value))
  {
    Rows(step, data, raw, msg, localeNow);
  }

  /** The labels step 10 stores, one per trip type; no two options share a
      label, so the stored answer tells them apart. */
  lemma TripTypeStored(data: Answers, msg: string, localeNow: string)
    ensures var e := Transition(10, data, msg, msg, localeNow);
      && (msg == "1" ==> e.Advance? && e.data[TipoViagem] == "Somente Aéreo")
      && (msg == "2" ==> e.Advance? && e.data[TipoViagem] == "Aéreo + Hotel")
      && (msg == "3" ==> e.Advance? && e.data[TipoViagem] == "Pacote Completo")
    ensures forall a, b :: TripType(a).Some? && TripType(a) == TripType(b) ==> a == b
  {
    assert Transition(10, data, msg, msg, localeNow) == ChooseTripType(data, msg);
  }

  /** The labels step 14 stores for fixed and flexible dates. */
  lemma FlexibilityStored(data: Answers, msg: string, localeNow: string)
    ensures var e := Transition(14, data, msg, msg, localeNow);
      && (msg == "1" ==> e.Advance? && e.data[Flexibilidade] == "Datas fixas")
      && (msg == "2" ==> e.Advance? && e.data[Flexibilidade] == "Pode flexibilizar (+/- 3 dias)")
  {
    assert Transition(14, data, msg, msg, localeNow) == ChooseFlexibility(data, msg);
  }

  /** The labels step 18 stores, one per accommodation preference, with the
      request stamped at the local time. */
  lemma PreferenceStored(data: Answers, msg: string, localeNow: string)
    ensures var e := Transition(18, data, msg, msg, localeNow);
      && (msg == "1" ==> e.Advance? && e.data[Preferencia] == "Econômica + hotel 3⭐ (com café)")
      && (msg == "2" ==> e.Advance? && e.data[Preferencia] == "Econômica + hotel 4⭐ (com café)")
      && (msg == "3" ==> e.Advance? && e.data[Preferencia] == "Econômica + hotel 5⭐ (com café)")
      && (msg == "4" ==> e.Advance? && e.data[Preferencia] == "Executiva + hotel 4/5⭐ (com café)")
      && (msg == "5" ==> e.Advance? && e.data[Preferencia] == "Quero sugestões")
      && (e.Advance? ==> e.data[DataSolicitacao] == localeNow)
  {
    assert Transition(18, data, msg, msg, localeNow) == ChoosePreference(data, msg, localeNow);
  }

  /** No two accommodation options share a label. */
  lemma PreferenceLabelsDistinct(a: string, b: string)
    ensures Preference(a).Some? && Preference(a) == Preference(b) ==> a == b
  {
  }

  /** Step 15 accepts exactly the counts `parseInt` reads as 1 to 50. What
      it stores is `String(n)`: the decimal digits of n without a leading
      zero, which read back as the same number. */
  lemma PassengerCount(data: Answers, raw: string, msg: string, localeNow: string)
    ensures var e := Transition(15, data, raw, msg, localeNow);
      && (e.Advance? <==> ParseInt(raw).Some? && 1 <= ParseInt(raw).value <= 50)
      && (e.Advance? ==> e.step == 16 && NumPassageiros in e.data &&
                         var v := e.data[NumPassageiros];
                         && v != [] && AllDigits(v) && v[0] != '0'
                         && DigitsValue(v) == ParseInt(raw).value
                         && ParseInt(v) == ParseInt(raw))
  {
    assert Transition(15, data, raw, msg, localeNow) == CountPassengers(data, raw);
    CountReadsBack(data, raw);
  }

  lemma CountReadsBack(data: Answers, raw: string)
    ensures var e := CountPassengers(data, raw);
      && (e.Advance? <==> ValidCount(raw))
      && (e.Advance? ==> e.step == 16 && NumPassageiros in e.data &&
                         var v := e.data[NumPassageiros];
                         && v != [] && AllDigits(v) && v[0] != '0'
                         && DigitsValue(v) == ParseInt(raw).value
                         && ParseInt(v) == ParseInt(raw))
  {
    if ValidCount(raw) {
      ParseIntNatToString(ParseInt(raw).value);
      DigitsValueOfNatToString(ParseInt(raw).value);
    }
  }

  // ---------------------------------------------------------------------------
  // Completed flows

  /** A completed flow records its status and service type, the attendant
      picked from the menu (or, for support, the one stored at step 21), and
      for support the issue text. */
  ghost predicate RecordsFlow(step: int, data: Answers, raw: string, msg: string, e: Effect) {
    e.Finish? ==>
      && e.flow == (if step == 40 then Quote else if step == 22 then Support else Direct)
      && Status in e.lead && e.lead[Status] == StatusOf(e.flow)
      && TipoAtendimento in e.lead && e.lead[TipoAtendimento] == ServiceOf(e.flow)
      && (e.flow != Support ==> e.attendant == AttendantByOption(msg))
      && (e.flow == Support ==> e.attendant == AttendantOf(data) && InfoViagem in e.lead && e.lead[InfoViagem] == raw)
      && (e.attendant.Some? ==> AtendenteId in e.lead && e.lead[AtendenteId] == e.attendant.value.id)
      && (e.flow != Support ==> e.attendant.Some? && Records(e.lead, e.attendant.value))
  }

  lemma RecordsFlowAtQuote(data: Answers, raw: string, msg: string)
    ensures RecordsFlow(40, data, raw, msg, PickQuoteAttendant(data, msg))
  {
  }

  lemma RecordsFlowAtDirect(data: Answers, raw: string, msg: string, localeNow: string)
    ensures RecordsFlow(30, data, raw, msg, PickDirectAttendant(msg, localeNow))
  {
  }

  lemma RecordsFlowAtSupport(data: Answers, raw: string, msg: string, localeNow: string)
    ensures RecordsFlow(22, data, raw, msg, DescribeIssue(data, raw, localeNow))
  {
    match AttendantOf(data) {
      case None =>
      case Some(a) => assert data[AtendenteId] == a.id;
    }
  }

  /** What each flow records on its lead: status "Novo", "Em atendimento" or
      "Contato direto" with the matching service type, and the attendant. */
  lemma FinishRecordsFlow(step: int, data: Answers, raw: string, msg: string, localeNow: string)
    ensures var e := Transition(step, data, raw, msg, localeNow);
      e.Finish? ==>
        && e.flow == (if step == 40 then Quote else if step == 22 then Support else Direct)
        && Status in e.lead && e.lead[Status] == StatusOf(e.flow)
        && TipoAtendimento in e.lead && e.lead[TipoAtendimento] == ServiceOf(e.flow)
        && (e.flow != Support ==> e.attendant == AttendantByOption(msg))
        && (e.flow == Support ==> e.attendant == AttendantOf(data) && InfoViagem in e.lead && e.lead[InfoViagem] == raw)
        && (e.attendant.Some? ==> AtendenteId in e.lead && e.lead[AtendenteId] == e.attendant.value.id)
        && (e.flow != Support ==> e.attendant.Some? && Records(e.lead, e.attendant.value))
  {
    var e := Transition(step, data, raw, msg, localeNow);
    if step == 40 {
      assert e == PickQuoteAttendant(data, msg);
      RecordsFlowAtQuote(data, raw, msg);
    } else if step == 30 {
      assert e == PickDirectAttendant(msg, localeNow);
      RecordsFlowAtDirect(data, raw, msg, localeNow);
    } else if step == 22 {
      assert e == DescribeIssue(data, raw, localeNow);
      RecordsFlowAtSupport(data, raw, msg, localeNow);
    } else {
      Rows(step, data, raw, msg, localeNow);
    }
  }

  // ---------------------------------------------------------------------------
  // What a session holds at each step

  /** The answers a session has collected on reaching `step`: everything the
      steps before it on its flow wrote. */
  function Collected(step: int): set<Field>
    decreases step
  {
    if 11 <= step <= 19 then Collected(step - 1) + Writes(step - 1)
    else if step == 40 then Collected(19)
    else if step == 22 then Collected(21) + AttendantFields
    else if step in {10, 20, 21, 30} then {Flow}
    else {}
  }

  /** The answers of the quote questionnaire. */
  const QuoteFields: set<Field> := {
    Flow, TipoViagem, Destino, CidadeSaida, Periodo, Flexibilidade,
    NumPassageiros, Idades, Orcamento, Preferencia, DataSolicitacao
  }

  /** A session as the dialogue builds it: a defined step, exactly the
      answers collected on the way there, the flow tag of its flow, and at
      step 22 the name, id and number of an attendant that the roster knows. */
  predicate SessionOk(s: Session) {
    && s.step in Steps
    && s.data.Keys == Collected(s.step)
    && (s.step != 1 ==> Flow in s.data && s.data[Flow] == FlowName(s.step))
    && (s.step == 22 ==> AttendantOf(s.data).Some? && Records(s.data, AttendantOf(s.data).value))
  }

  /** A quote reaching step 40 has answered the whole questionnaire. */
  lemma {:induction false} QuoteCollectsEverything()
    ensures Collected(40) == QuoteFields
  {
    assert Collected(12) == {Flow, TipoViagem, Destino};
    assert Collected(15) == {Flow, TipoViagem, Destino, CidadeSaida, Periodo, Flexibilidade};
    assert Collected(18) == {Flow, TipoViagem, Destino, CidadeSaida, Periodo, Flexibilidade,
                             NumPassageiros, Idades, Orcamento};
  }

  /** Along each flow, the answers collected at the next step are those
      collected so far plus what this step writes, and the flow tag stays. */
  lemma CollectedAdvance(step: int, msg: string)
    requires step in Steps && step !in {22, 30, 40}
    requires step == 1 ==> msg in {"1", "2", "3"}
    requires step == 19 ==> msg == "1"
    ensures NextStep(step, msg) in Steps
    ensures Collected(NextStep(step, msg)) == Collected(step) + Writes(step)
    ensures step != 1 ==> FlowName(NextStep(step, msg)) == FlowName(step) && Flow !in Writes(step)
  {
    if step == 1 {
      assert Collected(NextStep(step, msg)) == {Flow};
    } else if step == 19 {
      assert Collected(40) == Collected(19);
    } else if step == 21 {
      assert Collected(22) == Collected(21) + AttendantFields;
    } else if step in {10, 20} {
      assert Collected(step + 1) == {Flow} + Writes(step);
    } else {
      assert 11 <= step + 1 <= 19;
      assert Collected(step + 1) == Collected(step) + Writes(step);
    }
  }

  /** What an effect `e` on the well-formed session `s` must satisfy. */
  ghost predicate KeepsSessionOk(s: Session, e: Effect, now: int) {
    && (e.Advance? ==> SessionOk(Session(e.step, e.data, now)))
    && (e.Finish? ==> e.attendant.Some?)
    && (e.Finish? && e.flow != Direct ==>
          forall k :: k in s.data ==> k in e.lead && e.lead[k] == s.data[k])
  }

  lemma AdvanceKeepsSessionOk(s: Session, raw: string, msg: string, localeNow: string, now: int)
    requires SessionOk(s) && s.step !in {22, 30, 40}
    ensures KeepsSessionOk(s, Transition(s.step, s.data, raw, msg, localeNow), now)
  {
    var e := Transition(s.step, s.data, raw, msg, localeNow);
    Rows(s.step, s.data, raw, msg, localeNow);
    if e.Advance? {
      assert Accepts(s.step, raw, msg);
      CollectedAdvance(s.step, msg);
      assert e.data.Keys == Collected(e.step);
      if s.step == 21 {
        assert AttendantByOption(msg).Some?;
      }
    }
  }

  /** The quote lead's fixed fields are none of the questionnaire's. */
  lemma QuoteLeadKeeps(data: Answers, a: Attendant)
    requires data.Keys <= QuoteFields
    ensures forall k :: k in data ==> k in QuoteLead(data, a) && QuoteLead(data, a)[k] == data[k]
  {
  }

  /** The support lead's fixed fields are none of those collected by step 22. */
  lemma SupportLeadKeeps(data: Answers, issue: string, localeNow: string)
    requires data.Keys <= {Flow, AtendenteNome, AtendenteId, AtendenteNumero}
    ensures forall k :: k in data ==> k in SupportLead(data, issue, localeNow) && SupportLead(data, issue, localeNow)[k] == data[k]
  {
  }

  lemma QuoteKeepsData(s: Session, msg: string, now: int)
    requires SessionOk(s) && s.step == 40
    ensures KeepsSessionOk(s, PickQuoteAttendant(s.data, msg), now)
  {
    match AttendantByOption(msg) {
      case None =>
      case Some(a) =>
        QuoteCollectsEverything();
        QuoteLeadKeeps(s.data, a);
    }
  }

  lemma SupportKeepsData(s: Session, raw: string, localeNow: string, now: int)
    requires SessionOk(s) && s.step == 22
    ensures KeepsSessionOk(s, DescribeIssue(s.data, raw, localeNow), now)
  {
    assert Collected(22) == {Flow, AtendenteNome, AtendenteId, AtendenteNumero};
    SupportLeadKeeps(s.data, raw, localeNow);
  }

  lemma DirectHasAttendant(s: Session, msg: string, localeNow: string, now: int)
    ensures KeepsSessionOk(s, PickDirectAttendant(msg, localeNow), now)
  {
  }

  /** The steps that complete a flow, as `Transition` dispatches them. */
  lemma FinishingSteps(step: int, data: Answers, raw: string, msg: string, localeNow: string)
    ensures step == 40 ==> Transition(step, data, raw, msg, localeNow) == PickQuoteAttendant(data, msg)
    ensures step == 22 ==> Transition(step, data, raw, msg, localeNow) == DescribeIssue(data, raw, localeNow)
    ensures step == 30 ==> Transition(step, data, raw, msg, localeNow) == PickDirectAttendant(msg, localeNow)
  {
  }

  lemma FinishKeepsSessionOk(s: Session, raw: string, msg: string, localeNow: string, now: int)
    requires SessionOk(s) && s.step in {22, 30, 40}
    ensures KeepsSessionOk(s, Transition(s.step, s.data, raw, msg, localeNow), now)
  {
    FinishingSteps(s.step, s.data, raw, msg, localeNow);
    if s.step == 40 {
      QuoteKeepsData(s, msg, now);
    } else if s.step == 22 {
      SupportKeepsData(s, raw, localeNow, now);
    } else {
      DirectHasAttendant(s, msg, localeNow, now);
    }
  }

  /** The invariant every session satisfies is kept by every transition; a
      completed flow always has its attendant, and quote and support leads
      carry every collected answer unchanged. */
  lemma TransitionKeepsSessionOk(s: Session, raw: string, msg: string, localeNow: string, now: int)
    requires SessionOk(s)
    ensures var e := Transition(s.step, s.data, raw, msg, localeNow);
      && (e.Advance? ==> SessionOk(Session(e.step, e.data, now)))
      && (e.Finish? ==> e.attendant.Some?)
      && (e.Finish? && e.flow != Direct ==>
            forall k :: k in s.data ==> k in e.lead && e.lead[k] == s.data[k])
  {
    if s.step in {22, 30, 40} {
      FinishKeepsSessionOk(s, raw, msg, localeNow, now);
    } else {
      AdvanceKeepsSessionOk(s, raw, msg, localeNow, now);
    }
  }

  /** A completed quote's lead holds every questionnaire answer, with the
      quote's flow tag. */
  lemma QuoteLeadComplete(s: Session, raw: string, msg: string, localeNow: string)
    requires SessionOk(s)
    ensures var e := Transition(s.step, s.data, raw, msg, localeNow);
      e.Finish? && e.flow == Quote ==> QuoteFields <= e.lead.Keys && e.lead[Flow] == "orcamento"
  {
    var e := Transition(s.step, s.data, raw, msg, localeNow);
    FinishRecordsFlow(s.step, s.data, raw, msg, localeNow);
    if e.Finish? && e.flow == Quote {
      QuoteCollectsEverything();
      TransitionKeepsSessionOk(s, raw, msg, localeNow, 0);
    }
  }
}
