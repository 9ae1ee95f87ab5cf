/**
 * The WhatsApp conversation service: a button click is routed first through
 * the active button catalog (text, webhook and no-op entries), then through
 * six hard-coded demo ids; a message whose click was not handled goes
 * through the text state machine welcome -> menu -> one of three branches.
 * The conversation states and the messages handed to the WhatsApp client are
 * the service's state; the catalog, the webhook's decoded reply, JSON
 * decoding and repr() are inputs.
 */
module WhatsAppFlow {
  import opened Wrappers
  import opened Text
  import opened Numbers
  import opened JsonValues
  import opened Flows
  import MessageParser

  type Message = MessageParser.Message

  const Welcome := "welcome"
  const Menu := "menu"
  const CollectAccount := "collect_account_for_conciliation"
  const CollectPeriod := "collect_period_finance"
  const SupportWait := "support_wait"

  const MenuReply := "Olá! Eu sou o Piter. Como posso ajudar?\n1) Consultas/Conciliação (SQL)\n2) Relatório Financeiro (SQL)\n3) Suporte"
  const AccountReply := "Perfeito! Para conciliação/consultas via SQL, me informe seu account_id para eu vincular o contexto."
  const PeriodReply := "Ótimo! Para relatório financeiro, me diga o período (ex: 2025-08)."
  const SupportReply := "Nosso suporte vai te atender. Descreva brevemente seu problema."
  const RetryReply := "Não entendi. Escolha 1, 2 ou 3."
  const ResetReply := "Voltando ao início..."
  const DefaultButtonsBody := "Selecione uma opção:"

  /** A wa_conversation_state row: the step key and the JSON context. */
  datatype ConvState = ConvState(stateKey: Option<string>, data: Json)

  /** s or default, for a nullable text column. */
  function OrText(s: Option<string>, default: string): (r: string)
    ensures s.Some? && s.value != "" ==> r == s.value
    ensures !(s.Some? && s.value != "") ==> r == default
  {
    if s.Some? && s.value != "" then s.value else default
  }

  /** _get_conversation_state: (state_key or 'welcome', data or {}); a missing row reads as both defaults. */
  function StateOf(states: map<string, ConvState>, conv: string): (r: (string, Json))
    ensures r.0 != ""
    ensures conv !in states ==> r == (Welcome, Empty)
    ensures Truthy(r.1) || r.1 == Empty
  {
    if conv !in states then (Welcome, Empty)
    else (OrText(states[conv].stateKey, Welcome), Or(states[conv].data, Empty))
  }

  /** The row _set_conversation_state stores: p_data is the context, or null when it is empty. */
  function Stored(step: string, context: Json): ConvState
  {
    ConvState(Some(step), if Truthy(context) then context else JNull)
  }

  /** A stored step and context read back as they were, an empty context as {}. */
  lemma StoredReadsBack(states: map<string, ConvState>, conv: string, step: string, context: Json)
    requires step != ""
    ensures StateOf(states[conv := Stored(step, context)], conv) == (step, Or(context, Empty))
  {
  }

  /** The stripped text (empty for none) starts with the digit d. */
  predicate Chose(text: Option<string>, d: char)
  {
    var choice := Strip(OrText(text, ""));
    choice != "" && choice[0] == d
  }

  /** The step transition of _handle_text_based_flow: the reply and the new step. */
  function TextStep(step: string, text: Option<string>): (r: (string, string))
    ensures r.1 in {Menu, CollectAccount, CollectPeriod, SupportWait, Welcome}
    ensures r.1 == Welcome <==> step != Welcome && step != Menu
  {
    if step == Welcome then (MenuReply, Menu)
    else if step == Menu then
      if Chose(text, '1') then (AccountReply, CollectAccount)
      else if Chose(text, '2') then (PeriodReply, CollectPeriod)
      else if Chose(text, '3') then (SupportReply, SupportWait)
      else (RetryReply, Menu)
    else (ResetReply, Welcome)
  }

  /** In the menu the choice is read after trimming, so surrounding blanks change nothing. */
  lemma MenuIgnoresBlanks(t: string)
    ensures TextStep(Menu, Some(t)) == TextStep(Menu, Some(Strip(t)))
  {
    SameChoice(t, '1');
    SameChoice(t, '2');
    SameChoice(t, '3');
  }

  lemma SameChoice(t: string, d: char)
    ensures Chose(Some(t), d) == Chose(Some(Strip(t)), d)
  {
    StripClean(Strip(t));
    assert Strip(OrText(Some(Strip(t)), "")) == Strip(OrText(Some(t), ""));
  }

  /** The three menu digits lead to their branches; any other reply keeps the menu and asks again. */
  lemma MenuChoices(t: string)
    ensures t != "" && t[0] in "123" ==> TextStep(Menu, Some(t)).1 == (if t[0] == '1' then CollectAccount else if t[0] == '2' then CollectPeriod else SupportWait)
    ensures (t == "" || t[0] !in "123") && !IsSpace(if t == "" then 'x' else t[0]) ==> TextStep(Menu, Some(t)) == (RetryReply, Menu)
  {
    if t != "" && !IsSpace(t[0]) {
      StripKeepsHead(t);
    }
  }

  /** Stripping a string that starts with a non-blank keeps its first character. */
  lemma StripKeepsHead(t: string)
    requires t != "" && !IsSpace(t[0])
    ensures Strip(t) != "" && Strip(t)[0] == t[0]
  {
    assert TrimLeftBy(t, IsSpace) == t;
  }

  /** Any step but welcome and menu resets to welcome, and the next message brings back the menu. */
  lemma ResetThenMenu(step: string, t1: Option<string>, t2: Option<string>)
    requires step != Welcome && step != Menu
    ensures TextStep(step, t1) == (ResetReply, Welcome)
    ensures TextStep(TextStep(step, t1).1, t2) == (MenuReply, Menu)
  {
  }

  /** The client's messages and the stored conversation states. */
  datatype World = World(states: map<string, ConvState>, sent: seq<Outbound>)

  function Send(w: World, m: Outbound): World
  {
    w.(sent := w.sent + [m])
  }

  /** _handle_text_based_flow: the reply and new step of the stored step, saved with the old context. */
  function TextFlow(w: World, conv: string, text: Option<string>): (r: (World, string))
  {
    var state := StateOf(w.states, conv);
    var step := TextStep(state.0, text);
    (w.(states := w.states[conv := Stored(step.1, state.1)]), step.0)
  }

  /** The text flow moves the conversation to its next step and keeps its context; it sends nothing itself. */
  lemma TextFlowKeepsContext(w: World, conv: string, text: Option<string>)
    ensures var after := TextFlow(w, conv, text).0;
      after.sent == w.sent &&
      StateOf(after.states, conv) == (TextStep(StateOf(w.states, conv).0, text).1, StateOf(w.states, conv).1) &&
      forall c | c != conv :: StateOf(after.states, c) == StateOf(w.states, c)
  {
    var state := StateOf(w.states, conv);
    StoredReadsBack(w.states, conv, TextStep(state.0, text).1, state.1);
  }

  /** A catalog row, or the webhook's override of one. */
  datatype CatalogEntry = CatalogEntry(responseType: Option<string>, responseText: Option<string>, nextButtons: Json, nextState: Json)

  /** next_buttons or []; a string is decoded as JSON, and invalid JSON gives []. */
  function NextButtons(entry: CatalogEntry, decode: string -> Option<Json>): (r: Json)
    ensures !entry.nextButtons.JStr? && Truthy(entry.nextButtons) ==> r == entry.nextButtons
    ensures entry.nextButtons.JStr? && entry.nextButtons.s != "" && decode(entry.nextButtons.s).None? ==> r == JList([])
  {
    var buttons := Or(entry.nextButtons, JList([]));
    if buttons.JStr? then
      match decode(buttons.s)
      case Some(j) => j
      case None => JList([])
    else buttons
  }

  /** _send_next_buttons: one buttons message when there are buttons, with the default body when there is no response text. */
  function NextButtonsSent(w: World, to: string, entry: CatalogEntry, decode: string -> Option<Json>): (r: World)
    ensures r.states == w.states
    ensures var b := NextButtons(entry, decode);
      r.sent == w.sent + if Truthy(b) then [ButtonsMsg(to, OrText(entry.responseText, DefaultButtonsBody), b)] else []
  {
    var buttons := NextButtons(entry, decode);
    if Truthy(buttons) then Send(w, ButtonsMsg(to, OrText(entry.responseText, DefaultButtonsBody), buttons)) else w
  }

  /** _apply_next_state: a truthy next_state is stored as str(next_state) with an empty context. */
  function NextStateApplied(w: World, conv: string, entry: CatalogEntry, repr: Json -> string): (r: World)
    ensures r.sent == w.sent
    ensures !Truthy(entry.nextState) ==> r == w
    ensures Truthy(entry.nextState) ==> r.states == w.states[conv := ConvState(Some(PyStr(entry.nextState, repr)), JNull)]
  {
    if Truthy(entry.nextState) then w.(states := w.states[conv := Stored(PyStr(entry.nextState, repr), Empty)]) else w
  }

  /** A next state given as text is what the conversation reads back, with an empty context. */
  lemma NextStateReadsBack(w: World, conv: string, entry: CatalogEntry, repr: Json -> string)
    requires entry.nextState.JStr? && entry.nextState.s != ""
    ensures StateOf(NextStateApplied(w, conv, entry, repr).states, conv) == (entry.nextState.s, Empty)
  {
    StoredReadsBack(w.states, conv, entry.nextState.s, Empty);
  }

  /** Both follow-ups of a handled catalog entry: next buttons, then next state. */
  function FollowUp(w: World, conv: string, to: string, entry: CatalogEntry, decode: string -> Option<Json>, repr: Json -> string): World
  {
    NextStateApplied(NextButtonsSent(w, to, entry, decode), conv, entry, repr)
  }

  /**
   * The webhook branch after the call: the text to send and the entry whose
   * next buttons and state apply.  None when the reply cannot be used (no
   * call, an exception, a reply that is not a dict, a text that is not a
   * string), and then the catalog entry's own follow-ups apply.
   */
  function WebhookOverride(entry: CatalogEntry, hook: Option<Json>): (r: Option<(string, CatalogEntry)>)
    ensures r.Some? ==> hook.Some? && hook.value.JObj?
    ensures r.Some? ==> var j := hook.value.fields;
      r.value.1.nextButtons == (if "next_buttons" in j then j["next_buttons"] else entry.nextButtons) &&
      r.value.1.nextState == (if "next_state" in j then j["next_state"] else entry.nextState)
  {
    if hook.None? || !hook.value.JObj? then None
    else
      var j := hook.value.fields;
      var text := if "text" in j then j["text"] else JNull;
      if Truthy(text) && !text.JStr? then None
      else
        var txt := Strip(if Truthy(text) then text.s else OrText(entry.responseText, ""));
        Some((txt, CatalogEntry(
          None,
          if txt != "" then Some(txt) else entry.responseText,
          if "next_buttons" in j then j["next_buttons"] else entry.nextButtons,
          if "next_state" in j then j["next_state"] else entry.nextState)))
  }

  /** The response type lower-cased, 'text' when none is given. */
  function ResponseType(entry: CatalogEntry): string
  {
    Lower(OrText(entry.responseType, "text"))
  }

  predicate HandledType(rtype: string)
  {
    rtype == "text" || rtype == "webhook" || rtype == "none" || rtype == "noop"
  }

  /** The catalog branch: the world after a handled entry, None for an unknown response type. */
  function CatalogRoute(w: World, entry: CatalogEntry, conv: string, to: string, hook: Option<Json>,
                        decode: string -> Option<Json>, repr: Json -> string): (r: Option<World>)
    ensures r.Some? <==> HandledType(ResponseType(entry))
  {
    var rtype := ResponseType(entry);
    if rtype == "text" then
      var text := Strip(OrText(entry.responseText, ""));
      var w1 := if text != "" then Send(w, TextMsg(to, text)) else w;
      Some(FollowUp(w1, conv, to, entry, decode, repr))
    else if rtype == "webhook" then
      match WebhookOverride(entry, hook)
      case Some((txt, override)) =>
        var w1 := if txt != "" then Send(w, TextMsg(to, txt)) else w;
        Some(FollowUp(w1, conv, to, override, decode, repr))
      case None => Some(FollowUp(w, conv, to, entry, decode, repr))
    else if rtype == "none" || rtype == "noop" then Some(FollowUp(w, conv, to, entry, decode, repr))
    else None
  }

  const MakePurchaseReply := "Ok! Vou gerar a lista de compras sugerida e te envio em instantes."
  const CmvActionsReply := "Ações recomendadas: 1) revisar porcionamento de queijos; 2) ajustar preço das bebidas; 3) auditar perdas na abertura."

  /** The demo sales summary: ten pizzas and five drinks. */
  const DemoSummary: map<string, Json> := map[
    "valor_pizzas" := JStr("4.520,00"),
    "qtd_pizzas" := JNum(180),
    "valor_bebidas" := JStr("1.240,00"),
    "qtd_bebidas" := JNum(210),
    "top_pizzas" := JList(Ranked("Pizza ", 10, 30)),
    "top_bebidas" := JList(Ranked("Bebida ", 5, 50))]

  /** [{'nome': f'{prefix}{i}', 'qtd': top - i} for i in range(1, n + 1)] */
  function Ranked(prefix: string, n: nat, top: int): (r: seq<Json>)
    ensures |r| == n
  {
    if n == 0 then [] else Ranked(prefix, n - 1, top) + [JObj(map["nome" := JStr(prefix + NatStr(n)), "qtd" := JNum(top - n)])]
  }

  /** [{'nome': f'Insumo {i}', 'qtd': 10 * i, 'unid': 'un'} for i in range(1, n + 1)] */
  function Supplies(n: nat): (r: seq<Json>)
    ensures |r| == n
  {
    if n == 0 then [] else Supplies(n - 1) + [JObj(map["nome" := JStr("Insumo " + NatStr(n)), "qtd" := JNum(10 * n), "unid" := JStr("un")])]
  }

  const DemoConsumption: seq<Json> := Supplies(10)

  function StockItem(name: string, current: int, minimum: int, unit: string): Json
  {
    JObj(map["insumo" := JStr(name), "qtd_atual" := JNum(current), "qtd_min" := JNum(minimum), "unid" := JStr(unit)])
  }

  const DemoLowStock: seq<Json> := [
    StockItem("Mussarela", 3, 8, "kg"),
    StockItem("Calabresa", 2, 6, "kg"),
    StockItem("Molho", 5, 10, "kg"),
    StockItem("Farinha", 20, 35, "kg"),
    StockItem("Refrigerante Lata", 12, 24, "un")]

  function Contributor(name: string, impact: Decimal): Json
  {
    JObj(map["insumo" := JStr(name), "impacto_pct" := JFloat(impact)])
  }

  const DemoCmv: map<string, Json> := map[
    "cmv_esperado" := JFloat(Decimal(280, 1)),
    "cmv_atual" := JFloat(Decimal(325, 1)),
    "desvio_pct" := JFloat(Decimal(45, 1)),
    "contribuintes" := JList([Contributor("Mussarela", Decimal(18, 1)), Contributor("Calabresa", Decimal(12, 1)),
                              Contributor("Tomate", Decimal(9, 1))])]

  predicate DemoId(id: string)
  {
    id in {"view_summary", "view_consumption", "view_low_stock", "make_purchase_list", "view_cmv_analysis", "view_cmv_actions"}
  }

  /** The hard-coded demo reply for one of the six ids. */
  function DemoReply(id: string, to: string, repr: Json -> string): (r: Option<Result<Outbound>>)
    ensures r.Some? <==> DemoId(id)
  {
    if id == "view_summary" then Some(AsText(to, SalesSummaryLines(DemoSummary, repr)))
    else if id == "view_consumption" then Some(AsText(to, ConsumptionLines(DemoConsumption, repr)))
    else if id == "view_low_stock" then Some(AsButtons(to, LowStockLines(DemoLowStock, repr), PurchaseButton))
    else if id == "make_purchase_list" then Some(Ok(TextMsg(to, MakePurchaseReply)))
    else if id == "view_cmv_analysis" then Some(AsButtons(to, CmvLines(DemoCmv, repr), ActionsButton))
    else if id == "view_cmv_actions" then Some(Ok(TextMsg(to, CmvActionsReply)))
    else None
  }

  /** The message has a button id (a non-empty one). */
  predicate Clicked(msg: Message)
  {
    msg.buttonId.Some? && msg.buttonId.value != ""
  }

  /**
   * _handle_button_click: whether the click was handled, and the world after
   * it; an exception from a demo flow is an Err.
   */
  function ButtonClick(w: World, catalog: map<string, CatalogEntry>, conv: string, msg: Message, hook: Option<Json>,
                       decode: string -> Option<Json>, repr: Json -> string): Result<(World, bool)>
  {
    if !Clicked(msg) || msg.senderNumber == "" then Ok((w, false))
    else
      var id, to := msg.buttonId.value, msg.senderNumber;
      var routed := if id in catalog then CatalogRoute(w, catalog[id], conv, to, hook, decode, repr) else None;
      if routed.Some? then Ok((routed.value, true))
      else
        match DemoReply(id, to, repr)
        case None => Ok((w, false))
        case Some(Err(e)) => Err(e)
        case Some(Ok(m)) => Ok((Send(w, m), true))
  }

  /** A click without id or sender is not handled and changes nothing. */
  lemma NoIdOrSenderUnhandled(w: World, catalog: map<string, CatalogEntry>, conv: string, msg: Message, hook: Option<Json>,
                              decode: string -> Option<Json>, repr: Json -> string)
    requires !Clicked(msg) || msg.senderNumber == ""
    ensures ButtonClick(w, catalog, conv, msg, hook, decode, repr) == Ok((w, false))
  {
  }

  /** A catalog entry of type text, webhook or none/noop always handles the click. */
  lemma CatalogTypesHandled(w: World, catalog: map<string, CatalogEntry>, conv: string, msg: Message, hook: Option<Json>,
                            decode: string -> Option<Json>, repr: Json -> string)
    requires Clicked(msg) && msg.senderNumber != ""
    requires msg.buttonId.value in catalog && HandledType(ResponseType(catalog[msg.buttonId.value]))
    ensures var r := ButtonClick(w, catalog, conv, msg, hook, decode, repr);
      r.Ok? && r.value.1 && Some(r.value.0) == CatalogRoute(w, catalog[msg.buttonId.value], conv, msg.senderNumber, hook, decode, repr)
  {
  }

  /**
   * Without a usable catalog entry the six demo ids are handled, and any
   * other id is not and changes nothing.
   */
  lemma FallbackIds(w: World, catalog: map<string, CatalogEntry>, conv: string, msg: Message, hook: Option<Json>,
                    decode: string -> Option<Json>, repr: Json -> string)
    requires Clicked(msg) && msg.senderNumber != ""
    requires msg.buttonId.value !in catalog || !HandledType(ResponseType(catalog[msg.buttonId.value]))
    ensures var r := ButtonClick(w, catalog, conv, msg, hook, decode, repr);
      (r.Ok? && r.value.1 ==> DemoId(msg.buttonId.value)) &&
      (!DemoId(msg.buttonId.value) ==> r == Ok((w, false)))
  {
  }

  /** An unhandled click leaves the world as it was. */
  lemma UnhandledChangesNothing(w: World, catalog: map<string, CatalogEntry>, conv: string, msg: Message, hook: Option<Json>,
                                decode: string -> Option<Json>, repr: Json -> string)
    requires var r := ButtonClick(w, catalog, conv, msg, hook, decode, repr); r.Ok? && !r.value.1
    ensures ButtonClick(w, catalog, conv, msg, hook, decode, repr).value.0 == w
  {
  }

  /** process_message: the button click first; the text flow and its reply only when it was not handled. */
  function Process(w: World, catalog: map<string, CatalogEntry>, conv: string, msg: Message, hook: Option<Json>,
                   decode: string -> Option<Json>, repr: Json -> string): Result<World>
  {
    var clicked :- if Clicked(msg) then ButtonClick(w, catalog, conv, msg, hook, decode, repr) else Ok((w, false));
    if clicked.1 then Ok(clicked.0)
    else
      var flow := TextFlow(clicked.0, conv, msg.text);
      Ok(Send(flow.0, TextMsg(msg.senderNumber, flow.1)))
  }

  /** A handled click is the whole effect of the message: the text flow does not run. */
  lemma HandledSkipsTextFlow(w: World, catalog: map<string, CatalogEntry>, conv: string, msg: Message, hook: Option<Json>,
                             decode: string -> Option<Json>, repr: Json -> string)
    requires Clicked(msg)
    requires var r := ButtonClick(w, catalog, conv, msg, hook, decode, repr); r.Ok? && r.value.1
    ensures Process(w, catalog, conv, msg, hook, decode, repr) == Ok(ButtonClick(w, catalog, conv, msg, hook, decode, repr).value.0)
  {
  }

  /** Otherwise the text flow runs on the unchanged world and its reply goes to the sender. */
  lemma UnhandledRunsTextFlow(w: World, catalog: map<string, CatalogEntry>, conv: string, msg: Message, hook: Option<Json>,
                              decode: string -> Option<Json>, repr: Json -> string)
    requires !Clicked(msg) || ButtonClick(w, catalog, conv, msg, hook, decode, repr) == Ok((w, false))
    ensures var flow := TextFlow(w, conv, msg.text);
      Process(w, catalog, conv, msg, hook, decode, repr) == Ok(Send(flow.0, TextMsg(msg.senderNumber, flow.1)))
  {
  }

  class FlowService {
    var states: map<string, ConvState>
    var sent: seq<Outbound>

    function Snapshot(): World
      reads this
    {
      World(states, sent)
    }

    constructor (states: map<string, ConvState>)
      ensures this.states == states && sent == []
    {
      this.states := states;
      sent := [];
    }

    method GetConversationState(conv: string) returns (step: string, context: Json)
      ensures (step, context) == StateOf(states, conv)
    {
      if conv !in states {
        step, context := Welcome, Empty;
      } else {
        step := OrText(states[conv].stateKey, Welcome);
        context := Or(states[conv].data, Empty);
      }
    }

    method SetConversationState(conv: string, step: string, context: Json)
      modifies this
      ensures states == old(states)[conv := Stored(step, context)] && sent == old(sent)
    {
      states := states[conv := Stored(step, context)];
    }

    method SendMessage(m: Outbound)
      modifies this
      ensures Snapshot() == Send(old(Snapshot()), m)
    {
      sent := sent + [m];
    }

    method HandleTextFlow(conv: string, text: Option<string>) returns (reply: string)
      modifies this
      ensures (Snapshot(), reply) == TextFlow(old(Snapshot()), conv, text)
    {
      var step, context := GetConversationState(conv);
      var next: string;
      reply, next := TextStep(step, text).0, TextStep(step, text).1;
      SetConversationState(conv, next, context);
    }

    method SendNextButtons(to: string, entry: CatalogEntry, decode: string -> Option<Json>)
      modifies this
      ensures Snapshot() == NextButtonsSent(old(Snapshot()), to, entry, decode)
    {
      var buttons := NextButtons(entry, decode);
      if Truthy(buttons) {
        SendMessage(ButtonsMsg(to, OrText(entry.responseText, DefaultButtonsBody), buttons));
      }
    }

    method ApplyNextState(conv: string, entry: CatalogEntry, repr: Json -> string)
      modifies this
      ensures Snapshot() == NextStateApplied(old(Snapshot()), conv, entry, repr)
    {
      if Truthy(entry.nextState) {
        SetConversationState(conv, PyStr(entry.nextState, repr), Empty);
      }
    }

    method FollowUps(conv: string, to: string, entry: CatalogEntry, decode: string -> Option<Json>, repr: Json -> string)
      modifies this
      ensures Snapshot() == FollowUp(old(Snapshot()), conv, to, entry, decode, repr)
    {
      SendNextButtons(to, entry, decode);
      ApplyNextState(conv, entry, repr);
    }

    /** The catalog branch of _handle_button_click; false for a response type it does not know. */
    method RouteCatalog(entry: CatalogEntry, conv: string, to: string, hook: Option<Json>,
                        decode: string -> Option<Json>, repr: Json -> string) returns (handled: bool)
      modifies this
      ensures var r := CatalogRoute(old(Snapshot()), entry, conv, to, hook, decode, repr);
        handled == r.Some? && Snapshot() == if handled then r.value else old(Snapshot())
    {
      var rtype := ResponseType(entry);
      if rtype == "text" {
        var text := Strip(OrText(entry.responseText, ""));
        if text != "" {
          SendMessage(TextMsg(to, text));
        }
        FollowUps(conv, to, entry, decode, repr);
        return true;
      } else if rtype == "webhook" {
        var override := WebhookOverride(entry, hook);
        if override.Some? {
          var txt := override.value.0;
          if txt != "" {
            SendMessage(TextMsg(to, txt));
          }
          FollowUps(conv, to, override.value.1, decode, repr);
        } else {
          FollowUps(conv, to, entry, decode, repr);
        }
        return true;
      } else if rtype == "none" || rtype == "noop" {
        FollowUps(conv, to, entry, decode, repr);
        return true;
      }
      return false;
    }

    /** The demo fallback: the built message for one of the six ids, None for any other. */
    method DemoFallback(id: string, to: string, repr: Json -> string) returns (r: Option<Result<Outbound>>)
      ensures r == DemoReply(id, to, repr)
    {
      if id == "view_summary" {
        var m := SendSalesSummary(to, DemoSummary, repr);
        r := Some(m);
      } else if id == "view_consumption" {
        var m := SendConsumptionList(to, DemoConsumption, repr);
        r := Some(m);
      } else if id == "view_low_stock" {
        var m := SendLowStockList(to, DemoLowStock, repr);
        r := Some(m);
      } else if id == "make_purchase_list" {
        r := Some(Ok(TextMsg(to, MakePurchaseReply)));
      } else if id == "view_cmv_analysis" {
        var m := SendCmvAnalysis(to, DemoCmv, repr);
        r := Some(m);
      } else if id == "view_cmv_actions" {
        r := Some(Ok(TextMsg(to, CmvActionsReply)));
      } else {
        r := None;
      }
    }

    /** _handle_button_click */
    method HandleButtonClick(catalog: map<string, CatalogEntry>, conv: string, msg: Message, hook: Option<Json>,
                             decode: string -> Option<Json>, repr: Json -> string) returns (r: Result<bool>)
      modifies this
      ensures var spec := ButtonClick(old(Snapshot()), catalog, conv, msg, hook, decode, repr);
        (r.Ok? <==> spec.Ok?) && (r.Ok? ==> r.value == spec.value.1 && Snapshot() == spec.value.0)
      ensures r.Err? ==> Snapshot() == old(Snapshot())
    {
      if !Clicked(msg) || msg.senderNumber == "" {
        return Ok(false);
      }
      var id, to := msg.buttonId.value, msg.senderNumber;
      if id in catalog {
        var handled := RouteCatalog(catalog[id], conv, to, hook, decode, repr);
        if handled {
          return Ok(true);
        }
      }
      var demo := DemoFallback(id, to, repr);
      if demo.None? {
        return Ok(false);
      }
      if demo.value.Err? {
        return Err(demo.value.msg);
      }
      SendMessage(demo.value.value);
      return Ok(true);
    }

    /** process_message */
    method ProcessMessage(catalog: map<string, CatalogEntry>, conv: string, msg: Message, hook: Option<Json>,
                          decode: string -> Option<Json>, repr: Json -> string) returns (r: Result<bool>)
      modifies this
      ensures var spec := Process(old(Snapshot()), catalog, conv, msg, hook, decode, repr);
        (r.Ok? <==> spec.Ok?) && (r.Ok? ==> Snapshot() == spec.value)
      ensures r.Err? ==> Snapshot() == old(Snapshot())
    {
      var handled := false;
      if Clicked(msg) {
        var clicked := HandleButtonClick(catalog, conv, msg, hook, decode, repr);
        if clicked.Err? {
          return Err(clicked.msg);
        }
        handled := clicked.value;
      }
      if !handled {
        var reply := HandleTextFlow(conv, msg.text);
        SendMessage(TextMsg(msg.senderNumber, reply));
      }
      r := Ok(handled);
    }
  }
}
