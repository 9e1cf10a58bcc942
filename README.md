# Health-plan WhatsApp bot: the conversation state machine

The bot answers WhatsApp messages for a health-plan broker. For every sender
it keeps two entries in process memory: a state label (`user_states`) and a
dictionary of the answers collected so far (`user_data`). Each inbound
message is matched against an ordered chain of conditions on the sender's
label and the lower-cased, trimmed text. The first branch that matches
chooses the next label (the in-flow fallback keeps the current one), writes
at most one answer field (the restart instead empties the sender's fields),
and chooses one canned reply. The questionnaire has four flows from the main
menu: a quotation (personal or family, or company/PME), doubts, support and
"other subject". Only the two quotation flows are complete.

This project models that handler and proves what it does:

- `dialogue.dfy`, module `Dialogue`: the state labels, the canned replies
  (one constructor per text, wording not modelled) and `Step`. `Step` is one
  turn written per state, as a reference definition independent of the
  handler's branch order. `Run` is a sender's sequence of turns.
- `webhook.dfy`, module `Webhook`: class `Chatbot` with the two dictionaries
  as `map` fields. `HandleMessage` follows the handler's `if/elif` chain
  branch for branch, in source order. The chain continues in
  `HandleQuotation` (the quotation branches) and then `HandleOthers` (doubts,
  support, other subject and the two fallbacks). Each of them is proved to
  produce exactly `Step`'s reply, to change the sender's label and fields to
  `Step`'s, and to leave every other sender's entries alone.
  `Valid()` is the map-safety invariant: a sender has a label exactly when
  they have a data entry, and no stored label is `initial` or the unreachable
  coverage-contact state. `SetField(sender, …)` is the
  `user_data[sender][field] = …` write and requires the sender to have an
  entry, so proving each call is proving the handler never raises KeyError.
- `properties.dfy`, module `DialogueProperties`: the behaviour as lemmas.
  One-turn facts are stated over `Step`; facts about a whole conversation
  are stated over `Run`.

The handler behaves as follows:

- The doubt, support and other-subject flows are marked as skeletons in the
  code itself (the "(Esqueleto)" comments at main.py:181, 212 and 223). None
  of them records an answer or reaches `finished`.
- Reaching `finished` does not clear the collected fields.
- From `finished`, a message that is not a restart keyword gets the top-level
  "type 'Olá' or 'menu'" reply and goes to `main_menu` with the fields kept.
  It does not restart the flow.
- In `doubt_type`, the branches for `doubt_coverage_collect_plan` and
  `doubt_coverage_collect_contact` are nested inside the `doubt_type` test,
  so they can never run. `HandleOthers` carries them as `assert false`,
  which proves they are dead. A sender who picks option 1 in `doubt_type`
  therefore gets stuck in `doubt_coverage_collect_plan`.
- `support_type`, `other_subject_description` and
  `doubt_coverage_collect_plan` have no branch of their own. Only a restart
  keyword leaves them.
- Free-text questions accept any text without validation, the empty string
  included. The age, region and coverage questions of the personal/family
  quotation (main.py:57-82) and the beneficiaries and region questions of the
  company quotation (main.py:84-100) display numbered options but still
  accept any text (main.py:134-145 and 163-171).

## Model

| member | source | states |
|---|---|---|
| `Dialogue.Step` | main.py:115-239 | No turn leaves a sender on `initial`. No turn reaches the unreachable coverage-contact state from a storable one. The main-menu reply comes exactly when the sender is new or sends a restart keyword, and then the state is `main_menu` and the fields are empty. Any other turn keeps every existing field key. |
| `Dialogue.Run` | main.py:115-239 | After at least one message a sender is never `initial`. A conversation that does not start in the coverage-contact state never reaches it. |
| `Webhook.Chatbot.constructor` | main.py:32-33 | Both dictionaries start empty and satisfy the invariant. |
| `Webhook.Chatbot.StateOf` | main.py:115 | The sender's label, which is `initial` exactly when no label is stored (the invariant means `initial` itself is never stored). |
| `Webhook.Chatbot.FieldsOf` | main.py:33 | The sender's stored fields, and empty ones for a sender who has no label. |
| `Webhook.Chatbot.SetState` | main.py:125 | The label write changes only that sender's label. It keeps the invariant because only storable labels are written. |
| `Webhook.Chatbot.SetField` | main.py:130 | The field write requires the sender to have a data entry, which is the absence of KeyError. It changes only that one field of that sender and keeps the invariant. |
| `Webhook.Chatbot.HandleMessage` | main.py:115-239 | Keeps the invariant. Returns `Step`'s reply. The new label map is the old one with only this sender set to `Step`'s next state, and the same holds for the new data map with `Step`'s fields. The restart branch is handled here and covers new senders too. |
| `Webhook.Chatbot.HandleQuotation` | main.py:124-179 | The quotation branches, in source order: every path agrees with `Step` and changes only the sender's entries. |
| `Webhook.Chatbot.HandleOthers` | main.py:182-239 | The doubt, support and other-subject branches and both fallbacks, in source order. They agree with `Step` and write no field. The two nested coverage branches are proved unreachable. |
| `DialogueProperties.RestartPrecedence` | main.py:118-121 | A new sender, or a restart keyword in any state, goes to the main menu with empty fields. |
| `DialogueProperties.MainMenuOptions` | main.py:124-226 | Options 1 to 4 go to the quotation, doubt, support and other-subject questions with their prompts, and the fields are unchanged. |
| `DialogueProperties.QuotationWhoOptions` | main.py:129-161 | "1" records `tipo_plano = individual_familia` and "2" records `familia`, and both ask for the age range. "3" records `pme` and asks for the number of beneficiaries. |
| `DialogueProperties.QuotationAnswersStoredVerbatim` | main.py:134-155 | Age range, region, coverage preference and phone each store any non-keyword message verbatim under their own field and advance, the empty message included. The phone step advances to `finished` with the data kept. |
| `DialogueProperties.PmeAnswersStoredVerbatim` | main.py:163-179 | Number of beneficiaries, region and company data each store any non-keyword message verbatim under their own field and advance. The last one advances to `finished` with the data kept. |
| `DialogueProperties.DoubtTypeOptions` | main.py:192-210 | "1" asks for the plan with the fields unchanged. Every other non-keyword message gets the invalid-option reply and stays in `doubt_type`. |
| `DialogueProperties.MidFlowFallback` | main.py:230-236 | The "didn't understand this step" reply comes exactly when a state below the main menu has no branch for the message. When it comes, state and fields are unchanged. |
| `DialogueProperties.TopLevelFallback` | main.py:237-239 | The "type 'Olá' or 'menu'" reply comes exactly when `main_menu` or `finished` gets an unrecognised message. The state becomes `main_menu` and the fields are kept. |
| `DialogueProperties.InvalidChoiceKeepsState` | main.py:124-239 | In the three choice states (`main_menu`, `quotation_who`, `doubt_type`), an answer outside the options leaves state and fields unchanged. |
| `DialogueProperties.RestartAfterAnything` | main.py:118-121 | Whatever conversation came before, a final restart keyword leaves the sender on the main menu with no fields. |
| `DialogueProperties.DeadEndsOnlyLeftByRestart` | main.py:212-236 | From support, other subject or the coverage steps, any sequence of non-keyword messages leaves state and fields exactly as they were. |
| `DialogueProperties.CollectedFieldsKept` | main.py:118-239 | For a sender who already has a label, no sequence of non-keyword messages drops a collected field. Finishing a flow does not drop any either. |
| `DialogueProperties.IndividualQuotationFlow` | main.py:124-155 | From the main menu, the messages "1", then "1" or "2", then four answers, taken one turn at a time, end in `finished`. The fields hold the plan type and the four answers verbatim. |
| `DialogueProperties.PmeQuotationFlow` | main.py:124-179 | From the main menu, the messages "1", "3" and three answers, taken one turn at a time, end in `finished`. The fields hold `tipo_plano = pme` and the three answers. |
| `DialogueProperties.NewSenderQuotation` | main.py:115-155 | A new sender who sends "oi", "1", "1", "2", "1", "3" and a phone number ends in `finished`, with all five answers still stored. |
| `DialogueProperties.FinishedDoesNotRestart` | main.py:237-239 | In `finished`, a non-keyword message gives the top-level fallback and keeps the fields. It does not restart. |

## Left out

- The HTTP endpoint, the Flask app and the local runner (main.py:10, 103, 245-247) are transport. The model's input is the normalised message and the sender. The empty-string defaults for a missing `Body` or `From` are ordinary inputs to `HandleMessage`.
- Message normalisation (`.lower().strip()`, main.py:105) is not modelled: `HandleMessage` takes the already-normalised text. Unicode case folding has no counterpart here. The keyword "olá" is compared as the already lower-cased string.
- Loading the environment and initialising the Twilio client (main.py:8, 13-27) are configuration of an external library. The client is never used.
- Building the TwiML reply and serialising it (main.py:108-109, 242) is library code. The model returns the reply's identifier.
- The logging `print` calls (main.py:111, 153, 177, 204) have no effect on state.
- The reply wording (main.py:36-100 and the inline texts) is represented by one `Reply` constructor per distinct text.
- The bodies of the dead branches at main.py:198-206 are not modelled. They would write `plano_operadora_duvida_cobertura` and `contato_duvida_cobertura` and send two further texts. They cannot run, which `HandleOthers` proves, so no field and no reply of theirs exists in the model.
- The database-backed store and the completion hand-off of other revisions of the bot are not part of this file, so they are not modelled.
- Concurrent requests racing on the shared dictionaries are out of scope. Each call is one atomic update.
