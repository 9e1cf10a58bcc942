/** The conversation engine of the health-plan WhatsApp bot: the state labels a
    sender can be in, the canned replies, and one turn of the dialogue as a
    function of the sender's state, the normalised message and the fields
    collected so far. */
module Dialogue {

  /** The state labels the webhook keeps per sender. `Initial` is what a sender
      without a stored label is treated as having (main.py:115); it is never
      stored. `DoubtCoverageCollectContact` is only ever assigned by a branch
      that cannot run (main.py:198-201), so no sender reaches it. */
  datatype State =
    | Initial
    | MainMenu
    | QuotationWho
    | QuotationAge
    | QuotationRegion
    | QuotationMedicalDental
    | QuotationCollectPhone
    | QuotationPmeBeneficiaries
    | QuotationPmeRegion
    | QuotationPmeCollectData
    | DoubtType
    | DoubtCoverageCollectPlan
    | DoubtCoverageCollectContact
    | SupportType
    | OtherSubjectDescription
    | Finished

  /** One constructor per distinct reply text the webhook can send; the
      wording itself is not modelled. */
  datatype Reply =
    | MainMenuText                // get_main_menu_text
    | QuotationWhoText            // get_quotation_who_text
    | AgeRangeText                // get_age_range_text
    | RegionText                  // get_region_text
    | MedicalDentalText           // get_medical_dental_text
    | AskPhoneText                // "digite seu melhor telefone com DDD"
    | QuotationReceivedText       // closing text of the individual/family quotation
    | PmeBeneficiariesText        // get_pme_beneficiaries_text
    | PmeRegionText               // get_pme_region_text
    | AskCompanyDataText          // "digite o CNPJ da empresa, seu nome e telefone"
    | PmeQuotationReceivedText    // closing text of the company quotation
    | DoubtTypeText               // the five doubt types
    | AskPlanText                 // "qual plano você tem em mente ou qual operadora"
    | InvalidDoubtTypeText        // "Opção inválida. Por favor, digite 1, 2, 3, 4 ou 5"
    | SupportTypeText             // the three support types
    | AskSubjectText              // "descreva brevemente o assunto"
    | StepNotUnderstoodText       // "não entendi sua resposta para esta etapa"
    | NotUnderstoodText           // "não entendi. Por favor, digite 'Olá' ou 'menu'"

  /** The answers collected from one sender, by field name. */
  type Fields = map<string, string>

  const TipoPlano := "tipo_plano"
  const FaixaIdade := "faixa_idade"
  const RegiaoAtendimento := "regiao_atendimento"
  const PreferenciaConvenio := "preferencia_convenio"
  const TelefoneContato := "telefone_contato"
  const NumBeneficiariosPme := "num_beneficiarios_pme"
  const RegiaoPme := "regiao_pme"
  const DadosPme := "dados_pme"

  /** What one inbound message does to its sender: the next state, the reply
      and the sender's collected fields afterwards. */
  datatype Turn = Turn(next: State, reply: Reply, fields: Fields)

  /** A sender's entry in the two dictionaries. */
  datatype Conversation = Conversation(state: State, fields: Fields)

  /** The words that send any sender back to the main menu. */
  predicate IsRestartKeyword(msg: string) {
    msg == "olá" || msg == "oi" || msg == "menu" || msg == "voltar"
  }

  /** A label that can be stored for a sender. */
  predicate Storable(s: State) {
    s != Initial && s != DoubtCoverageCollectContact
  }

  /** Back to the main menu with every collected field dropped. */
  function Restart(): Turn {
    Turn(MainMenu, MainMenuText, map[])
  }

  /** A free-text state: keep the message verbatim under `field` and move on. */
  function Collect(f: Fields, field: string, msg: string, next: State, reply: Reply): Turn {
    Turn(next, reply, f[field := msg])
  }

  /** The main menu's four options and its fallback. */
  function MainMenuChoice(msg: string, f: Fields): Turn {
    if msg == "1" then Turn(QuotationWho, QuotationWhoText, f)
    else if msg == "2" then Turn(DoubtType, DoubtTypeText, f)
    else if msg == "3" then Turn(SupportType, SupportTypeText, f)
    else if msg == "4" then Turn(OtherSubjectDescription, AskSubjectText, f)
    else Turn(MainMenu, NotUnderstoodText, f)
  }

  /** Who the plan is for: the plan type it records and where it leads. */
  function QuotationWhoChoice(msg: string, f: Fields): Turn {
    if msg == "1" then Turn(QuotationAge, AgeRangeText, f[TipoPlano := "individual_familia"])
    else if msg == "2" then Turn(QuotationAge, AgeRangeText, f[TipoPlano := "familia"])
    else if msg == "3" then Turn(QuotationPmeBeneficiaries, PmeBeneficiariesText, f[TipoPlano := "pme"])
    else Turn(QuotationWho, StepNotUnderstoodText, f)
  }

  /** One turn of the dialogue, organised by state: the restart check first,
      then what each state does with the message. */
  function Step(s: State, msg: string, f: Fields): (t: Turn)
    // no turn ever leaves a sender without a stored label
    ensures t.next != Initial
    ensures Storable(s) ==> Storable(t.next)
    // the main menu is shown exactly when a restart happens, and only a restart clears data
    ensures t.reply == MainMenuText <==> (s == Initial || IsRestartKeyword(msg))
    ensures t.reply == MainMenuText ==> t.next == MainMenu && t.fields == map[]
    ensures t.reply != MainMenuText ==> f.Keys <= t.fields.Keys
  {
    if IsRestartKeyword(msg) then Restart()
    else match s
      case Initial => Restart()
      case MainMenu => MainMenuChoice(msg, f)
      case QuotationWho => QuotationWhoChoice(msg, f)
      case QuotationAge => Collect(f, FaixaIdade, msg, QuotationRegion, RegionText)
      case QuotationRegion => Collect(f, RegiaoAtendimento, msg, QuotationMedicalDental, MedicalDentalText)
      case QuotationMedicalDental => Collect(f, PreferenciaConvenio, msg, QuotationCollectPhone, AskPhoneText)
      case QuotationCollectPhone => Collect(f, TelefoneContato, msg, Finished, QuotationReceivedText)
      case QuotationPmeBeneficiaries => Collect(f, NumBeneficiariosPme, msg, QuotationPmeRegion, PmeRegionText)
      case QuotationPmeRegion => Collect(f, RegiaoPme, msg, QuotationPmeCollectData, AskCompanyDataText)
      case QuotationPmeCollectData => Collect(f, DadosPme, msg, Finished, PmeQuotationReceivedText)
      case DoubtType =>
        if msg == "1" then Turn(DoubtCoverageCollectPlan, AskPlanText, f)
        else Turn(DoubtType, InvalidDoubtTypeText, f)
      case DoubtCoverageCollectPlan => Turn(s, StepNotUnderstoodText, f)
      case DoubtCoverageCollectContact => Turn(s, StepNotUnderstoodText, f)
      case SupportType => Turn(s, StepNotUnderstoodText, f)
      case OtherSubjectDescription => Turn(s, StepNotUnderstoodText, f)
      case Finished => Turn(MainMenu, NotUnderstoodText, f)
  }

  /** The conversation after one more message. */
  function Next(c: Conversation, msg: string): Conversation {
    var t := Step(c.state, msg, c.fields);
    Conversation(t.next, t.fields)
  }

  /** The conversation after one sender's messages are handled in order. */
  function Run(c: Conversation, msgs: seq<string>): (r: Conversation)
    ensures |msgs| > 0 ==> r.state != Initial
    ensures c.state != DoubtCoverageCollectContact ==> r.state != DoubtCoverageCollectContact
    decreases |msgs|
  {
    if msgs == [] then c
    else Run(Next(c, msgs[0]), msgs[1..])
  }
}
