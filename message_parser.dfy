/**
 * The WhatsApp webhook parser: from the raw webhook body, one normalised
 * message per usable entry of the first change's message list, with the
 * sender's number in international form and a clicked button's id
 * normalised.  json.loads on a button id is an oracle, as is repr for
 * lists and dicts.
 */
module MessageParser {
  import opened Wrappers
  import opened Text
  import opened JsonValues
  import opened Choices
  import opened Seqs

  /** ParsedWhatsAppMessage */
  datatype Message = Message(
    senderNumber: string,
    senderId: string,
    profileName: Option<string>,
    messageId: string,
    messageType: string,
    text: Option<string>,
    buttonId: Option<string>,
    buttonTitle: Option<string>,
    raw: Json)

  const ValidationError := "ValidationError"
  const TypeError := "TypeError"

  /** _normalize_phone_number: a '+' in front of a non-empty number that lacks one. */
  function NormalizePhone(number: string): string
  {
    if number != "" && number[0] != '+' then "+" + number else number
  }

  /** An empty number stays empty; any other comes out starting with '+', the number itself after any added '+'. */
  lemma PhoneNormalized(number: string)
    ensures var r := NormalizePhone(number);
      (number == "" ==> r == "") &&
      (number != "" ==> r[0] == '+' && (r == number || r[1..] == number))
  {
  }

  lemma PhoneIdempotent(number: string)
    ensures NormalizePhone(NormalizePhone(number)) == NormalizePhone(number)
  {
  }

  /** The id before the first ':' (split(':', 1)[0]). */
  function BeforeColon(s: string): (r: string)
    ensures ':' !in r
    ensures ':' !in s ==> r == s
    ensures ':' in s ==> |r| < |s| && r == s[..|r|] && s[|r|] == ':'
  {
    if ':' in s then s[..IndexOf(s, ':')] else s
  }

  /** The raw button id and title, before normalisation, or None for a message that is not a click. */
  function RawButton(message: Json): (r: Result<Option<(string, string)>>)
  {
    var msgType :- Get(message, "type");
    if msgType == JStr("interactive") then
      var i :- Get(message, "interactive");
      var interactive := Or(i, Empty);
      var buttonReply :- Get(interactive, "button_reply");
      var listReply :- if Truthy(buttonReply) then Ok(JNull) else Get(interactive, "list_reply");
      var reply := Or(buttonReply, Or(listReply, Empty));
      ReplyFields(reply, "id", "id", "title")
    else if msgType == JStr("button") then
      var b :- Get(message, "button");
      ReplyFields(Or(b, Empty), "payload", "id", "text")
    else Ok(None)
  }

  /** The reply's id under the first key, else the second, else empty, and its title, both stripped. */
  function ReplyFields(reply: Json, first: string, second: string, title: string): (r: Result<Option<(string, string)>>)
  {
    var f :- Get(reply, first);
    var s :- if Truthy(f) then Ok(JNull) else Get(reply, second);
    var rawId :- StripValue(Or(f, Or(s, JStr(""))));
    var t :- Get(reply, title);
    var rawTitle :- StripValue(Or(t, JStr("")));
    Ok(Some((rawId, rawTitle)))
  }

  /**
   * The id normalisation: an id that starts with '{' or '[' and decodes to a
   * dict is replaced by its 'id', else its 'action', when truthy; then str(),
   * strip, lower-case, and everything from the first ':' cut.
   */
  function NormalizeButtonId(rawId: string, decode: string -> Option<Json>, repr: Json -> string): (r: string)
    ensures ':' !in r
  {
    BeforeColon(Lower(Strip(PyStr(Or(ChosenId(rawId, decode), JStr("")), repr))))
  }

  /** The id value before str(): the decoded dict's 'id' or 'action' when truthy, else the raw id. */
  function ChosenId(rawId: string, decode: string -> Option<Json>): Json
  {
    var decoded := if StartsWith(rawId, "{") || StartsWith(rawId, "[") then decode(rawId) else None;
    if decoded.Some? && decoded.value.JObj? then
      var obj := decoded.value.fields;
      var id := if "id" in obj then obj["id"] else JNull;
      var action := if "action" in obj then obj["action"] else JNull;
      Or(id, Or(action, JStr(rawId)))
    else JStr(rawId)
  }

  /** _extract_button_info: (None, None) unless a click with a non-empty id; AttributeError on a malformed reply. */
  function ExtractButtonInfo(message: Json, decode: string -> Option<Json>, repr: Json -> string): (r: Result<(Option<string>, Option<string>)>)
    ensures r.Ok? && r.value.0.Some? ==> ':' !in r.value.0.value && r.value.1.Some?
    ensures r.Ok? && r.value.0.None? ==> r.value.1.None?
  {
    var raw :- RawButton(message);
    if raw.None? || raw.value.0 == "" then Ok((None, None))
    else Ok((Some(NormalizeButtonId(raw.value.0, decode, repr)), Some(raw.value.1)))
  }

  /** A message of any type but 'interactive' or 'button' carries no button. */
  lemma NotAClick(message: Json, decode: string -> Option<Json>, repr: Json -> string)
    requires message.JObj?
    requires var t := if "type" in message.fields then message.fields["type"] else JNull;
      t != JStr("interactive") && t != JStr("button")
    ensures ExtractButtonInfo(message, decode, repr) == Ok((None, None))
  {
  }

  /** A button_reply that is a dict with a string id is used, whatever list_reply holds. */
  lemma ButtonReplyPreferred(message: Json, reply: map<string, Json>, id: string, decode: string -> Option<Json>, repr: Json -> string)
    requires message.JObj? && "type" in message.fields && message.fields["type"] == JStr("interactive")
    requires "interactive" in message.fields && message.fields["interactive"].JObj?
    requires var i := message.fields["interactive"].fields;
      "button_reply" in i && i["button_reply"] == JObj(reply)
    requires "id" in reply && reply["id"] == JStr(id) && Strip(id) != "" && "title" !in reply
    ensures ExtractButtonInfo(message, decode, repr) == Ok((Some(NormalizeButtonId(Strip(id), decode, repr)), Some("")))
  {
    var interactive := message.fields["interactive"];
    assert Truthy(JObj(reply)) by { assert "id" in reply; }
    assert Truthy(interactive) by { assert "button_reply" in interactive.fields; }
    assert Get(message, "interactive") == Ok(interactive);
    assert Get(interactive, "button_reply") == Ok(JObj(reply));
    ReplyFieldsFirst(reply, "id", "id", "title", id);
    assert RawButton(message) == ReplyFields(JObj(reply), "id", "id", "title");
  }

  /** In the legacy button type, a payload is used, whatever id holds. */
  lemma PayloadPreferred(message: Json, button: map<string, Json>, payload: string, decode: string -> Option<Json>, repr: Json -> string)
    requires message.JObj? && "type" in message.fields && message.fields["type"] == JStr("button")
    requires "button" in message.fields && message.fields["button"] == JObj(button)
    requires "payload" in button && button["payload"] == JStr(payload) && Strip(payload) != "" && "text" !in button
    ensures ExtractButtonInfo(message, decode, repr) == Ok((Some(NormalizeButtonId(Strip(payload), decode, repr)), Some("")))
  {
    assert Truthy(JObj(button)) by { assert "payload" in button; }
    ReplyFieldsFirst(button, "payload", "id", "text", payload);
    assert RawButton(message) == ReplyFields(JObj(button), "payload", "id", "text");
  }

  /** A truthy string under the first key is the id, whatever the second holds; an absent title is empty. */
  lemma ReplyFieldsFirst(reply: map<string, Json>, first: string, second: string, title: string, v: string)
    requires first in reply && reply[first] == JStr(v) && Strip(v) != "" && title !in reply
    ensures ReplyFields(JObj(reply), first, second, title) == Ok(Some((Strip(v), "")))
  {
    assert Truthy(JStr(v));
    assert Strip("") == "";
  }

  /** An id that is not JSON-looking is only lower-cased and cut at ':'. */
  lemma PlainIdNormalized(rawId: string, decode: string -> Option<Json>, repr: Json -> string)
    requires rawId != "" && rawId[0] != '{' && rawId[0] != '[' && Strip(rawId) == rawId
    ensures NormalizeButtonId(rawId, decode, repr) == BeforeColon(Lower(rawId))
  {
    assert ChosenId(rawId, decode) == JStr(rawId);
    StrippedIdNormalized(rawId, repr);
  }

  /** An id that fails to decode is treated like a plain one. */
  lemma InvalidJsonKeepsId(rawId: string, decode: string -> Option<Json>, repr: Json -> string)
    requires decode(rawId).None? && Strip(rawId) == rawId && rawId != ""
    ensures NormalizeButtonId(rawId, decode, repr) == BeforeColon(Lower(rawId))
  {
    assert ChosenId(rawId, decode) == JStr(rawId);
    StrippedIdNormalized(rawId, repr);
  }

  lemma StrippedIdNormalized(rawId: string, repr: Json -> string)
    requires Strip(rawId) == rawId && rawId != ""
    ensures BeforeColon(Lower(Strip(PyStr(Or(JStr(rawId), JStr("")), repr)))) == BeforeColon(Lower(rawId))
  {
    assert Or(JStr(rawId), JStr("")) == JStr(rawId);
    LowerKeepsEnds(rawId);
    StripClean(Lower(rawId));
  }

  /** A JSON dict with a string id: that id, normalised, replaces the raw one. */
  lemma JsonIdUsed(rawId: string, obj: map<string, Json>, id: string, decode: string -> Option<Json>, repr: Json -> string)
    requires StartsWith(rawId, "{") && decode(rawId) == Some(JObj(obj))
    requires "id" in obj && obj["id"] == JStr(id) && id != ""
    ensures NormalizeButtonId(rawId, decode, repr) == BeforeColon(Lower(Strip(id)))
  {
    var chosen := ChosenId(rawId, decode);
    assert chosen == JStr(id);
    assert Or(chosen, JStr("")) == JStr(id);
    assert PyStr(JStr(id), repr) == id;
  }

  /** A stripped string stays stripped once lower-cased: lower() maps no character to or from whitespace. */
  lemma LowerKeepsEnds(s: string)
    requires s != [] && Strip(s) == s
    ensures !IsSpace(Lower(s)[0]) && !IsSpace(Lower(s)[|s| - 1])
  {
    LowerCharSpace(s[0]);
    LowerCharSpace(s[|s| - 1]);
  }

  lemma LowerCharSpace(c: char)
    requires !IsSpace(c)
    ensures !IsSpace(LowerChar(c))
  {
  }

  /** What the loop does with one message. */
  datatype Step = Skip | Emit(message: Message) | Caught | Uncaught(error: string)

  /** A value pydantic accepts for Optional[str]. */
  function OptionalString(v: Json): Option<Option<string>>
  {
    if v.JNull? then Some(None) else if v.JStr? then Some(Some(v.s)) else None
  }

  /**
   * One iteration: skip messages without a type, sender or id; an
   * AttributeError is caught by parse; pydantic refuses fields of the wrong
   * type with a ValidationError, which parse does not catch.
   */
  function MessageStep(m: Json, profile: Json, decode: string -> Option<Json>, repr: Json -> string): (r: Step)
    ensures r.Emit? ==> r.message.senderId != "" && r.message.messageId != "" && r.message.messageType != ""
    ensures r.Emit? ==> r.message.senderNumber == NormalizePhone(r.message.senderId) && r.message.raw == m
    ensures r.Emit? && r.message.text.Some? ==> r.message.messageType == "text"
    ensures r.Emit? && r.message.buttonId.Some? ==> ':' !in r.message.buttonId.value
    ensures r.Emit? ==> Some(r.message.profileName) == OptionalString(profile)
  {
    if !m.JObj? then Caught
    else
      var f := m.fields;
      var msgType := if "type" in f then f["type"] else JNull;
      var from := if "from" in f then f["from"] else JNull;
      var id := if "id" in f then f["id"] else JNull;
      if !Truthy(msgType) || !Truthy(from) || !Truthy(id) then Skip
      else if !from.JStr? then Caught
      else
        var textValue := if msgType == JStr("text") then
            (var t := if "text" in f then f["text"] else Empty; Get(t, "body"))
          else Ok(JNull);
        var button := ExtractButtonInfo(m, decode, repr);
        if textValue.Err? || button.Err? then Caught
        else if !id.JStr? || !msgType.JStr? || OptionalString(profile).None? || OptionalString(textValue.value).None? then
          Uncaught(ValidationError)
        else
          Emit(Message(NormalizePhone(from.s), from.s, OptionalString(profile).value, id.s, msgType.s,
                       OptionalString(textValue.value).value, button.value.0, button.value.1, m))
  }

  /** The loop's outcome so far: the parsed messages, or parse's return of [] after a caught error, or an escaping one. */
  datatype Collected = Done(parsed: seq<Message>) | Abort | Fail(error: string)

  /** The loop over a list of messages, from the front, as a function of its prefix. */
  function Collect(ms: seq<Json>, profile: Json, decode: string -> Option<Json>, repr: Json -> string): (r: Collected)
    ensures r.Done? ==> |r.parsed| <= |ms|
  {
    if ms == [] then Done([])
    else match Collect(ms[..|ms| - 1], profile, decode, repr)
      case Done(parsed) =>
        (match MessageStep(ms[|ms| - 1], profile, decode, repr)
         case Skip => Done(parsed)
         case Emit(x) => Done(parsed + [x])
         case Caught => Abort
         case Uncaught(e) => Fail(e))
      case other => other
  }

  /** The values the loop iterates over: a list's items; a non-empty str or dict yields strings, on which .get raises. */
  function Iterated(messages: Json): (r: Result<seq<Json>>)
  {
    match messages
    case JList(items) => Ok(items)
    case JStr(s) => Ok(seq(|s|, i requires 0 <= i < |s| => JStr([s[i]])))
    case JObj(fields) => if fields == map[] then Ok([]) else Ok([JStr("")])
    case _ => Err(TypeError)
  }

  /** The payload's first entry, its first change, its message list and the first contact's profile name. */
  datatype Envelope = Envelope(messages: Json, profile: Json)

  function Unwrap(body: Json): Result<Envelope>
  {
    var e :- Get(body, "entry");
    var entry := Or(GetFirst(e), Empty);
    var c :- Get(entry, "changes");
    var change := Or(GetFirst(c), Empty);
    var v :- Get(change, "value");
    var value := Or(v, Empty);
    var ms :- Get(value, "messages");
    var cs :- Get(value, "contacts");
    var contact := Or(GetFirst(Or(cs, JList([]))), Empty);
    var p :- Get(contact, "profile");
    var profile :- Get(Or(p, Empty), "name");
    Ok(Envelope(Or(ms, JList([])), profile))
  }

  /** parse as a function: Err only for the exceptions parse lets escape. */
  function ParseSpec(body: Json, decode: string -> Option<Json>, repr: Json -> string): Result<seq<Message>>
  {
    match Unwrap(body)
    case Err(_) => Ok([])
    case Ok(env) =>
      if !Truthy(env.messages) then Ok([])
      else match Iterated(env.messages)
        case Err(e) => Err(e)
        case Ok(ms) =>
          match Collect(ms, env.profile, decode, repr)
          case Done(parsed) => Ok(parsed)
          case Abort => Ok([])
          case Fail(e) => Err(e)
  }

  /** parse: the loop appending one message per usable entry. */
  method Parse(body: Json, decode: string -> Option<Json>, repr: Json -> string) returns (r: Result<seq<Message>>)
    ensures r == ParseSpec(body, decode, repr)
  {
    var envelope := Unwrap(body);
    if envelope.Err? || !Truthy(envelope.value.messages) {
      return Ok([]);
    }
    var messages := Iterated(envelope.value.messages);
    if messages.Err? {
      return Err(messages.msg);
    }
    var collected := CollectLoop(messages.value, envelope.value.profile, decode, repr);
    match collected {
      case Done(parsed) => r := Ok(parsed);
      case Abort => r := Ok([]);
      case Fail(e) => r := Err(e);
    }
  }

  /** The for loop of parse, stopping at the first exception. */
  method CollectLoop(ms: seq<Json>, profile: Json, decode: string -> Option<Json>, repr: Json -> string) returns (c: Collected)
    ensures c == Collect(ms, profile, decode, repr)
  {
    var parsed: seq<Message> := [];
    var i := 0;
    while i < |ms|
      invariant 0 <= i <= |ms|
      invariant Collect(ms[..i], profile, decode, repr) == Done(parsed)
    {
      assert ms[..i + 1][..i] == ms[..i];
      var step := MessageStep(ms[i], profile, decode, repr);
      if step.Caught? {
        assert Collect(ms[..i + 1], profile, decode, repr) == Abort;
        CollectStops(ms, i + 1, profile, decode, repr);
        return Abort;
      } else if step.Uncaught? {
        assert Collect(ms[..i + 1], profile, decode, repr) == Fail(step.error);
        CollectStops(ms, i + 1, profile, decode, repr);
        return Fail(step.error);
      } else if step.Emit? {
        parsed := parsed + [step.message];
      }
      i := i + 1;
    }
    assert ms[..i] == ms;
    c := Done(parsed);
  }

  /** Once the loop has stopped on an exception, later messages do not matter. */
  lemma {:induction false} CollectStops(ms: seq<Json>, n: nat, profile: Json, decode: string -> Option<Json>, repr: Json -> string)
    requires n <= |ms| && !Collect(ms[..n], profile, decode, repr).Done?
    ensures Collect(ms, profile, decode, repr) == Collect(ms[..n], profile, decode, repr)
    decreases |ms| - n
  {
    if n < |ms| {
      assert ms[..n + 1][..n] == ms[..n];
      CollectStops(ms, n + 1, profile, decode, repr);
    } else {
      assert ms[..n] == ms;
    }
  }

  /** The payloads of the parsed messages. */
  function Raws(parsed: seq<Message>): (r: seq<Json>)
    ensures |r| == |parsed| && forall k | 0 <= k < |parsed| :: r[k] == parsed[k].raw
  {
    seq(|parsed|, k requires 0 <= k < |parsed| => parsed[k].raw)
  }

  /** Every message parse returns has a type, a sender and an id, a '+' number, and the first contact's profile name. */
  lemma {:induction false} CollectedWellFormed(ms: seq<Json>, profile: Json, decode: string -> Option<Json>, repr: Json -> string)
    requires Collect(ms, profile, decode, repr).Done?
    ensures forall x | x in Collect(ms, profile, decode, repr).parsed ::
      x.messageId != "" && x.senderId != "" && x.messageType != "" && x.senderNumber != "" && x.senderNumber[0] == '+' &&
      Some(x.profileName) == OptionalString(profile) && x.raw in ms
  {
    if ms != [] {
      var init := ms[..|ms| - 1];
      CollectedWellFormed(init, profile, decode, repr);
      assert forall m | m in init :: m in ms;
      var step := MessageStep(ms[|ms| - 1], profile, decode, repr);
      if step.Emit? {
        PhoneNormalized(step.message.senderId);
      }
    }
  }

  /** The parsed messages are the kept ones, in input order. */
  lemma {:induction false} CollectInOrder(ms: seq<Json>, profile: Json, decode: string -> Option<Json>, repr: Json -> string)
    requires Collect(ms, profile, decode, repr).Done?
    ensures Subsequence(Raws(Collect(ms, profile, decode, repr).parsed), ms)
  {
    if ms == [] {
    } else {
      var init := ms[..|ms| - 1];
      var last := ms[|ms| - 1];
      assert ms == init + [last];
      CollectInOrder(init, profile, decode, repr);
      var before := Collect(init, profile, decode, repr).parsed;
      var step := MessageStep(last, profile, decode, repr);
      if step.Emit? {
        assert Raws(before + [step.message]) == Raws(before) + [last];
        SubsequenceSnoc(Raws(before), init, last);
      } else {
        SubsequenceExtend(Raws(before), init, last);
      }
    }
  }

  /** Only the first entry is ever read: entries after it change nothing. */
  lemma OnlyFirstEntry(first: Json, rest: seq<Json>, others: map<string, Json>, decode: string -> Option<Json>, repr: Json -> string)
    requires "entry" !in others
    ensures ParseSpec(JObj(others["entry" := JList([first] + rest)]), decode, repr) ==
            ParseSpec(JObj(map["entry" := JList([first])]), decode, repr)
  {
  }

  /** A body that is not a dict makes .get raise, and parse returns []. */
  lemma NotADictBody(body: Json, decode: string -> Option<Json>, repr: Json -> string)
    requires !body.JObj?
    ensures ParseSpec(body, decode, repr) == Ok([])
  {
  }

  /** A caught error in any message discards the messages parsed before it. */
  lemma CaughtDiscards(ms: seq<Json>, n: nat, profile: Json, decode: string -> Option<Json>, repr: Json -> string)
    requires n < |ms| && Collect(ms[..n], profile, decode, repr).Done?
    requires MessageStep(ms[n], profile, decode, repr).Caught?
    ensures Collect(ms, profile, decode, repr) == Abort
  {
    assert ms[..n + 1][..n] == ms[..n];
    CollectStops(ms, n + 1, profile, decode, repr);
  }
}
