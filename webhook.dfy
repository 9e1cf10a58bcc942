/** The webhook's two module-level dictionaries and the handler that updates
    them once per inbound message, branch for branch in the order the handler
    tests them. */
module Webhook {
  import opened Dialogue

  class Chatbot {
    /** sender -> state label (`user_states`) */
    var states: map<string, State>
    /** sender -> collected fields (`user_data`) */
    var data: map<string, Fields>

    /** Every sender with a label has a data entry and the other way round, and
        no stored label is `initial` or the unreachable coverage-contact state. */
    ghost predicate Valid()
      reads this
    {
      && states.Keys == data.Keys
      && forall u :: u in states ==> Storable(states[u])
    }

    /** Both dictionaries start empty. */
    constructor ()
      ensures Valid()
      ensures states == map[] && data == map[]
    {
      states := map[];
      data := map[];
    }

    /** The sender's label, `Initial` when none is stored. */
    function StateOf(sender: string): (s: State)
      reads this
      requires Valid()
      ensures s == Initial <==> sender !in states
      ensures sender in states ==> s == states[sender]
    {
      if sender in states then states[sender] else Initial
    }

    /** The sender's collected fields, empty when none are stored. */
    function FieldsOf(sender: string): (f: Fields)
      reads this
      requires Valid()
      ensures StateOf(sender) == Initial ==> f == map[]
      ensures sender in data ==> f == data[sender]
    {
      if sender in data then data[sender] else map[]
    }

    /** `user_states[sender] = s`: the write every branch but the restart uses
        for a sender that already has an entry. */
    method SetState(sender: string, s: State)
      requires Valid() && sender in states && Storable(s)
      modifies this
      ensures Valid()
      ensures states == old(states)[sender := s] && data == old(data)
    {
      states := states[sender := s];
    }

    /** `user_data[sender][key] = value`: defined only for a sender with an
        entry, which is what keeps the handler's field writes from failing. */
    method SetField(sender: string, key: string, value: string)
      requires Valid() && sender in data
      modifies this
      ensures Valid()
      ensures data == old(data)[sender := old(data)[sender][key := value]] && states == old(states)
    {
      data := data[sender := data[sender][key := value]];
    }

    /** Handle one already-normalised message from `sender`: the reply is the
        one `Step` gives and only the sender's two entries change, to what
        `Step` gives. */
    method HandleMessage(sender: string, msg: string) returns (reply: Reply)
      requires Valid()
      modifies this
      ensures Valid()
      ensures var t := Step(old(StateOf(sender)), msg, old(FieldsOf(sender)));
        && reply == t.reply
        && states == old(states)[sender := t.next]
        && data == old(data)[sender := t.fields]
    {
      var current := StateOf(sender);
      if current == Initial || IsRestartKeyword(msg) {
        states := states[sender := MainMenu];
        data := data[sender := map[]];
        reply := MainMenuText;
      } else {
        reply := HandleQuotation(sender, msg, current);
      }
    }

    /** The quotation branches, tried next in the order the handler tests them. */
    method HandleQuotation(sender: string, msg: string, current: State) returns (reply: Reply)
      requires Valid()
      requires current == StateOf(sender) && current != Initial && !IsRestartKeyword(msg)
      modifies this
      ensures Valid()
      ensures var t := Step(current, msg, old(FieldsOf(sender)));
        && reply == t.reply
        && states == old(states)[sender := t.next]
        && data == old(data)[sender := t.fields]
    {
      if current == MainMenu && msg == "1" {
        SetState(sender, QuotationWho);
        reply := QuotationWhoText;
      } else if current == QuotationWho && (msg == "1" || msg == "2") {
        SetField(sender, TipoPlano, if msg == "1" then "individual_familia" else "familia");
        SetState(sender, QuotationAge);
        reply := AgeRangeText;
      } else if current == QuotationAge {
        SetField(sender, FaixaIdade, msg);
        SetState(sender, QuotationRegion);
        reply := RegionText;
      } else if current == QuotationRegion {
        SetField(sender, RegiaoAtendimento, msg);
        SetState(sender, QuotationMedicalDental);
        reply := MedicalDentalText;
      } else if current == QuotationMedicalDental {
        SetField(sender, PreferenciaConvenio, msg);
        SetState(sender, QuotationCollectPhone);
        reply := AskPhoneText;
      } else if current == QuotationCollectPhone {
        SetField(sender, TelefoneContato, msg);
        reply := QuotationReceivedText;
        SetState(sender, Finished);

      // company (PME) quotation
      } else if current == QuotationWho && msg == "3" {
        SetField(sender, TipoPlano, "pme");
        SetState(sender, QuotationPmeBeneficiaries);
        reply := PmeBeneficiariesText;
      } else if current == QuotationPmeBeneficiaries {
        SetField(sender, NumBeneficiariosPme, msg);
        SetState(sender, QuotationPmeRegion);
        reply := PmeRegionText;
      } else if current == QuotationPmeRegion {
        SetField(sender, RegiaoPme, msg);
        SetState(sender, QuotationPmeCollectData);
        reply := AskCompanyDataText;
      } else if current == QuotationPmeCollectData {
        SetField(sender, DadosPme, msg);
        reply := PmeQuotationReceivedText;
        SetState(sender, Finished);
      } else {
        reply := HandleOthers(sender, msg, current);
      }
    }

    /** The doubt, support and other-subject branches and the fallbacks, tried
        last. */
    method HandleOthers(sender: string, msg: string, current: State) returns (reply: Reply)
      requires Valid()
      requires current == StateOf(sender) && current != Initial && !IsRestartKeyword(msg)
      requires !(current == MainMenu && msg == "1")
      requires !(current == QuotationWho && (msg == "1" || msg == "2" || msg == "3"))
      requires current !in {QuotationAge, QuotationRegion, QuotationMedicalDental, QuotationCollectPhone}
      requires current !in {QuotationPmeBeneficiaries, QuotationPmeRegion, QuotationPmeCollectData}
      modifies this
      ensures Valid()
      ensures var t := Step(current, msg, old(FieldsOf(sender)));
        && reply == t.reply
        && states == old(states)[sender := t.next]
        && data == old(data)[sender := t.fields]
    {
      ghost var f := data[sender];
      assert data[sender := f] == data;  // none of these branches writes a field
      if current == MainMenu && msg == "2" {
        assert Step(current, msg, f) == Turn(DoubtType, DoubtTypeText, f);
        SetState(sender, DoubtType);
        reply := DoubtTypeText;
      } else if current == DoubtType {
        if msg == "1" {
          assert Step(current, msg, f) == Turn(DoubtCoverageCollectPlan, AskPlanText, f);
          SetState(sender, DoubtCoverageCollectPlan);
          reply := AskPlanText;
        } else if current == DoubtCoverageCollectPlan {
          // the coverage-plan step, nested where current is DoubtType: never runs
          assert false;
        } else if current == DoubtCoverageCollectContact {
          // the coverage-contact step, nested the same way: never runs
          assert false;
        } else {
          assert Step(current, msg, f) == Turn(DoubtType, InvalidDoubtTypeText, f);
          reply := InvalidDoubtTypeText;
          SetState(sender, DoubtType);
        }

      // support and other subject
      } else if current == MainMenu && msg == "3" {
        assert Step(current, msg, f) == Turn(SupportType, SupportTypeText, f);
        SetState(sender, SupportType);
        reply := SupportTypeText;
      } else if current == MainMenu && msg == "4" {
        assert Step(current, msg, f) == Turn(OtherSubjectDescription, AskSubjectText, f);
        SetState(sender, OtherSubjectDescription);
        reply := AskSubjectText;

      // nothing matched
      } else if current != Initial && current != MainMenu && current != Finished {
        assert Step(current, msg, f) == Turn(current, StepNotUnderstoodText, f);
        reply := StepNotUnderstoodText;
      } else {
        assert Step(current, msg, f) == Turn(MainMenu, NotUnderstoodText, f);
        reply := NotUnderstoodText;
        SetState(sender, MainMenu);
      }
    }
  }
}
