/** What the webhook's dialogue promises, stated over one turn (`Step`) and
    over a sender's whole sequence of messages (`Run`). */
module DialogueProperties {
  import opened Dialogue

  /** None of the messages is a restart keyword. */
  predicate NoRestart(msgs: seq<string>) {
    forall i :: 0 <= i < |msgs| ==> !IsRestartKeyword(msgs[i])
  }

  /** Dropping the first message keeps the property. */
  lemma NoRestartTail(msgs: seq<string>)
    requires msgs != [] && NoRestart(msgs)
    ensures !IsRestartKeyword(msgs[0]) && NoRestart(msgs[1..])
  {
  }

  // ---------------------------------------------------------------- one turn

  /** A sender without a label, or any sender sending a restart keyword, goes
      to the main menu with no fields, whatever state it was in. */
  lemma RestartPrecedence(s: State, msg: string, f: Fields)
    requires s == Initial || IsRestartKeyword(msg)
    ensures Step(s, msg, f) == Turn(MainMenu, MainMenuText, map[])
  {
  }

  /** The four main-menu options, none of which touches the fields. */
  lemma MainMenuOptions(msg: string, f: Fields)
    ensures msg == "1" ==> Step(MainMenu, msg, f) == Turn(QuotationWho, QuotationWhoText, f)
    ensures msg == "2" ==> Step(MainMenu, msg, f) == Turn(DoubtType, DoubtTypeText, f)
    ensures msg == "3" ==> Step(MainMenu, msg, f) == Turn(SupportType, SupportTypeText, f)
    ensures msg == "4" ==> Step(MainMenu, msg, f) == Turn(OtherSubjectDescription, AskSubjectText, f)
  {
  }

  /** Who the plan is for: "1" and "2" record a personal or family plan and ask
      for the age range, "3" records a company plan and asks for the number of
      beneficiaries. */
  lemma QuotationWhoOptions(msg: string, f: Fields)
    ensures msg == "1" ==> Step(QuotationWho, msg, f) == Turn(QuotationAge, AgeRangeText, f[TipoPlano := "individual_familia"])
    ensures msg == "2" ==> Step(QuotationWho, msg, f) == Turn(QuotationAge, AgeRangeText, f[TipoPlano := "familia"])
    ensures msg == "3" ==> Step(QuotationWho, msg, f) == Turn(QuotationPmeBeneficiaries, PmeBeneficiariesText, f[TipoPlano := "pme"])
  {
  }

  /** Every free-text step of the personal/family quotation keeps the message
      verbatim under its own field and moves on, with no check of the text;
      the empty message is not a restart keyword, so it is accepted too. */
  lemma QuotationAnswersStoredVerbatim(msg: string, f: Fields)
    requires !IsRestartKeyword(msg)
    ensures Step(QuotationAge, msg, f) == Turn(QuotationRegion, RegionText, f[FaixaIdade := msg])
    ensures Step(QuotationRegion, msg, f) == Turn(QuotationMedicalDental, MedicalDentalText, f[RegiaoAtendimento := msg])
    ensures Step(QuotationMedicalDental, msg, f) == Turn(QuotationCollectPhone, AskPhoneText, f[PreferenciaConvenio := msg])
    ensures Step(QuotationCollectPhone, msg, f) == Turn(Finished, QuotationReceivedText, f[TelefoneContato := msg])
  {
  }

  /** The same for the company quotation. */
  lemma PmeAnswersStoredVerbatim(msg: string, f: Fields)
    requires !IsRestartKeyword(msg)
    ensures Step(QuotationPmeBeneficiaries, msg, f) == Turn(QuotationPmeRegion, PmeRegionText, f[NumBeneficiariosPme := msg])
    ensures Step(QuotationPmeRegion, msg, f) == Turn(QuotationPmeCollectData, AskCompanyDataText, f[RegiaoPme := msg])
    ensures Step(QuotationPmeCollectData, msg, f) == Turn(Finished, PmeQuotationReceivedText, f[DadosPme := msg])
  {
  }

  /** The doubt menu: "1" asks for the plan with the fields unchanged; anything
      else that is not a restart keyword re-asks with the invalid-option text. */
  lemma DoubtTypeOptions(msg: string, f: Fields)
    requires !IsRestartKeyword(msg)
    ensures msg == "1" ==> Step(DoubtType, msg, f) == Turn(DoubtCoverageCollectPlan, AskPlanText, f)
    ensures msg != "1" ==> Step(DoubtType, msg, f) == Turn(DoubtType, InvalidDoubtTypeText, f)
  {
  }

  /** A state below the main menu with no branch for the message. */
  predicate MidFlowUnmatched(s: State, msg: string) {
    && !IsRestartKeyword(msg)
    && (|| (s == QuotationWho && msg != "1" && msg != "2" && msg != "3")
        || s == DoubtCoverageCollectPlan || s == DoubtCoverageCollectContact
        || s == SupportType || s == OtherSubjectDescription)
  }

  /** The main menu or the end of a flow, with a message no option matches. */
  predicate TopLevelUnmatched(s: State, msg: string) {
    && !IsRestartKeyword(msg)
    && (|| (s == MainMenu && msg != "1" && msg != "2" && msg != "3" && msg != "4")
        || s == Finished)
  }

  /** The mid-flow "didn't understand this step" reply comes exactly when a
      state below the main menu has no branch for the message, and then
      nothing changes. */
  lemma MidFlowFallback(s: State, msg: string, f: Fields)
    ensures Step(s, msg, f).reply == StepNotUnderstoodText <==> MidFlowUnmatched(s, msg)
    ensures MidFlowUnmatched(s, msg) ==> Step(s, msg, f) == Turn(s, StepNotUnderstoodText, f)
  {
  }

  /** The top-level "didn't understand, type menu" reply comes exactly when
      the main menu or a finished flow gets an unrecognised message; the
      sender is put on the main menu and keeps every collected field. */
  lemma TopLevelFallback(s: State, msg: string, f: Fields)
    ensures Step(s, msg, f).reply == NotUnderstoodText <==> TopLevelUnmatched(s, msg)
    ensures TopLevelUnmatched(s, msg) ==> Step(s, msg, f) == Turn(MainMenu, NotUnderstoodText, f)
  {
  }

  /** A choice state given an answer outside its options stays where it is
      with the fields unchanged. */
  lemma InvalidChoiceKeepsState(s: State, msg: string, f: Fields)
    requires !IsRestartKeyword(msg)
    requires || (s == MainMenu && msg !in ["1", "2", "3", "4"])
             || (s == QuotationWho && msg !in ["1", "2", "3"])
             || (s == DoubtType && msg != "1")
    ensures Step(s, msg, f).next == s && Step(s, msg, f).fields == f
  {
  }

  // ------------------------------------------------------- many turns

  /** Handling `a` and then `b` is handling `a + b`. */
  lemma {:induction false} RunAppend(c: Conversation, a: seq<string>, b: seq<string>)
    ensures Run(c, a + b) == Run(Run(c, a), b)
    decreases |a|
  {
    if a == [] {
      assert a + b == b;
    } else {
      assert (a + b)[0] == a[0];
      assert (a + b)[1..] == a[1..] + b;
      RunAppend(Next(c, a[0]), a[1..], b);
    }
  }

  /** Whatever came before, a restart keyword as the last message leaves the
      sender on the main menu with no fields. */
  lemma RestartAfterAnything(c: Conversation, msgs: seq<string>, keyword: string)
    requires IsRestartKeyword(keyword)
    ensures Run(c, msgs + [keyword]) == Conversation(MainMenu, map[])
  {
    RunAppend(c, msgs, [keyword]);
    RestartPrecedence(Run(c, msgs).state, keyword, Run(c, msgs).fields);
  }

  /** Support, other subject and the coverage steps have no way out but a
      restart keyword: any number of other messages leaves the sender exactly
      where it was. */
  lemma {:induction false} DeadEndsOnlyLeftByRestart(s: State, f: Fields, msgs: seq<string>)
    requires s in {SupportType, OtherSubjectDescription, DoubtCoverageCollectPlan, DoubtCoverageCollectContact}
    requires NoRestart(msgs)
    ensures Run(Conversation(s, f), msgs) == Conversation(s, f)
    decreases |msgs|
  {
    if msgs != [] {
      NoRestartTail(msgs);
      DeadEndsOnlyLeftByRestart(s, f, msgs[1..]);
    }
  }

  /** Only a restart clears collected data: for a sender that already has a
      label, messages without a restart keyword never drop a field, not even
      when a flow finishes. */
  lemma {:induction false} CollectedFieldsKept(c: Conversation, msgs: seq<string>)
    requires c.state != Initial
    requires NoRestart(msgs)
    ensures c.fields.Keys <= Run(c, msgs).fields.Keys
    decreases |msgs|
  {
    if msgs != [] {
      NoRestartTail(msgs);
      CollectedFieldsKept(Next(c, msgs[0]), msgs[1..]);
    }
  }

  /** The whole personal/family quotation from the main menu, one message at
      a time: "1", then "1" or "2", then four answers, every one recorded, and
      the flow ends finished with the data kept. */
  lemma IndividualQuotationFlow(f: Fields, who: string, age: string, region: string, pref: string, phone: string)
    requires who == "1" || who == "2"
    requires !IsRestartKeyword(age) && !IsRestartKeyword(region)
    requires !IsRestartKeyword(pref) && !IsRestartKeyword(phone)
    ensures Next(Next(Next(Next(Next(Next(Conversation(MainMenu, f), "1"), who), age), region), pref), phone)
         == Conversation(Finished,
              f[TipoPlano := if who == "1" then "individual_familia" else "familia"]
               [FaixaIdade := age][RegiaoAtendimento := region]
               [PreferenciaConvenio := pref][TelefoneContato := phone])
  {
    var f1 := f[TipoPlano := if who == "1" then "individual_familia" else "familia"];
    var c2 := Next(Next(Conversation(MainMenu, f), "1"), who);
    assert c2 == Conversation(QuotationAge, f1);
    QuotationAnswersStoredVerbatim(age, f1);
    QuotationAnswersStoredVerbatim(region, f1[FaixaIdade := age]);
    QuotationAnswersStoredVerbatim(pref, f1[FaixaIdade := age][RegiaoAtendimento := region]);
    QuotationAnswersStoredVerbatim(phone, f1[FaixaIdade := age][RegiaoAtendimento := region][PreferenciaConvenio := pref]);
  }

  /** The whole company quotation from the main menu, one message at a time:
      "1", then "3", then three answers, ending finished with the data kept. */
  lemma PmeQuotationFlow(f: Fields, beneficiaries: string, region: string, company: string)
    requires !IsRestartKeyword(beneficiaries) && !IsRestartKeyword(region) && !IsRestartKeyword(company)
    ensures Next(Next(Next(Next(Next(Conversation(MainMenu, f), "1"), "3"), beneficiaries), region), company)
         == Conversation(Finished,
              f[TipoPlano := "pme"][NumBeneficiariosPme := beneficiaries]
               [RegiaoPme := region][DadosPme := company])
  {
    var f1 := f[TipoPlano := "pme"];
    assert Next(Next(Conversation(MainMenu, f), "1"), "3") == Conversation(QuotationPmeBeneficiaries, f1);
    PmeAnswersStoredVerbatim(beneficiaries, f1);
    PmeAnswersStoredVerbatim(region, f1[NumBeneficiariosPme := beneficiaries]);
    PmeAnswersStoredVerbatim(company, f1[NumBeneficiariosPme := beneficiaries][RegiaoPme := region]);
  }

  // --------------------------------------------------------- scenarios

  /** A new sender greets with "oi" and completes a personal quotation: the
      flow ends finished and keeps every answer. */
  lemma NewSenderQuotation()
    ensures Next(Next(Next(Next(Next(Next(Next(Conversation(Initial, map[]),
              "oi"), "1"), "1"), "2"), "1"), "3"), "11999999999")
         == Conversation(Finished, map[TipoPlano := "individual_familia", FaixaIdade := "2",
                                       RegiaoAtendimento := "1", PreferenciaConvenio := "3",
                                       TelefoneContato := "11999999999"])
  {
    RestartPrecedence(Initial, "oi", map[]);
    IndividualQuotationFlow(map[], "1", "2", "1", "3", "11999999999");
  }

  /** After a finished flow any other message gives the top-level fallback,
      not a restart: main menu, not-understood reply, answers kept. */
  lemma FinishedDoesNotRestart(msg: string, f: Fields)
    requires !IsRestartKeyword(msg)
    ensures Step(Finished, msg, f) == Turn(MainMenu, NotUnderstoodText, f)
  {
  }
}
