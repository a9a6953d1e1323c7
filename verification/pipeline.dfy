/**
 * The two webhook handlers around the single `last_purchase` slot.
 * The language model, Telegram and Google Sheets are outside the model:
 * their answers are parameters (the completion text, whether a call
 * raised) and every call the handlers make is recorded, in order, in an
 * effect trace.
 */
module Pipeline {
  import opened Wrappers
  import opened JsonValue
  import opened Unwrap
  import opened Category
  import opened PyStr

  /** The contents of `last_purchase` once a notification has filled it. */
  datatype Pending = Pending(amount: Json, currency: Json, rawDescription: Json)

  /** The Python exceptions a handler can let escape. */
  datatype Error =
    | AttributeError   // `.get` on a parsed value that is not an object, or `.strip()` on a missing answer
    | KeyError(key: string)   // a missing field in the extraction or in the empty slot
    | TransportError   // the Telegram request raised
    | LedgerError   // the Sheets append raised

  /** `{"ok": True}`, or the exception that ended the request. */
  datatype Outcome = Ok | Raised(error: Error)

  datatype Message =
    | AskWhatItWas(amount: Json, currency: Json, rawDescription: Json)
    | Categorized(category: string)

  /** One call to an outside service, in the order the handlers make them. */
  datatype Effect =
    | ExtractRequest(notification: string)
    | ClassifyRequest(text: string)
    | Send(chatId: string, message: Message)
    | AppendRow(row: seq<Json>)

  /** The three fields `handle_notification` reads, all present. */
  predicate HasFields(fields: map<string, Json>)
  {
    "amount" in fields && "currency" in fields && "raw_description" in fields
  }

  /**
   * What `handle_notification` does with the extraction `info`: a value
   * that is not an object has no `.get`; a falsy `is_credit_card` means
   * nothing to record; otherwise the three fields are read in order.
   */
  function ReadTransaction(info: Json): (r: Result<Option<Pending>, Error>)
    ensures !info.JObj? <==> r == Failure(AttributeError)
    ensures r == Success(None) <==> info.JObj? && !Truthy(Get(info.fields, "is_credit_card"))
    ensures r.Success? && r.value.Some? <==>
      info.JObj? && Truthy(Get(info.fields, "is_credit_card")) && HasFields(info.fields)
    ensures r.Success? && r.value.Some? ==>
      r.value.value == Pending(info.fields["amount"], info.fields["currency"], info.fields["raw_description"])
    ensures r.Failure? && info.JObj? ==>
      r.error.KeyError? && r.error.key !in info.fields
      && r.error.key in ["amount", "currency", "raw_description"]
    ensures r.Failure? && info.JObj? && r.error.key != "amount" ==> "amount" in info.fields
    ensures r.Failure? && info.JObj? && r.error.key == "raw_description" ==> "currency" in info.fields
  {
    if !info.JObj? then Failure(AttributeError)
    else if !Truthy(Get(info.fields, "is_credit_card")) then Success(None)
    else if "amount" !in info.fields then Failure(KeyError("amount"))
    else if "currency" !in info.fields then Failure(KeyError("currency"))
    else if "raw_description" !in info.fields then Failure(KeyError("raw_description"))
    else Success(Some(Pending(info.fields["amount"], info.fields["currency"], info.fields["raw_description"])))
  }

  /** The parse-failure record never starts a pending transaction. */
  lemma NotACardRecordsNothing()
    ensures ReadTransaction(NotACard) == Success(None)
  {
    assert Get(NotACard.fields, "is_credit_card") == JBool(false);
  }

  /** A completion that is missing or that the parser rejects never starts a pending transaction. */
  lemma ParseFailureRecordsNothing(completion: Option<string>, parse: string -> Option<Json>)
    requires completion.None? || parse(Payload(Strip(completion.value))).None?
    ensures ReadTransaction(ExtractTransactionInfo(completion, parse)) == Success(None)
  {
    NotACardRecordsNothing();
  }

  /** The five cells appended to the sheet, in column order. */
  function Row(p: Pending, text: string, category: string): seq<Json>
  {
    [p.amount, p.currency, p.rawDescription, JStr(text), JStr(category)]
  }

  /** The ledger: the rows whose append a sequence of calls attempted, oldest first. */
  function Rows(trace: seq<Effect>): seq<seq<Json>>
  {
    if trace == [] then []
    else (if trace[0].AppendRow? then [trace[0].row] else []) + Rows(trace[1..])
  }

  lemma RowsCons(e: Effect, rest: seq<Effect>)
    ensures Rows([e] + rest) == (if e.AppendRow? then [e.row] else []) + Rows(rest)
  {
    assert ([e] + rest)[1..] == rest;
  }

  /** The ledger of a trace extended by more calls is the old ledger extended by their rows. */
  lemma {:induction false} RowsAppend(trace: seq<Effect>, more: seq<Effect>)
    ensures Rows(trace + more) == Rows(trace) + Rows(more)
    decreases |trace|
  {
    if trace == [] {
      assert trace + more == more;
    } else {
      assert (trace + more)[1..] == trace[1..] + more;
      RowsAppend(trace[1..], more);
    }
  }

  /** The ledger of the calls a reply makes holds the merged row once. */
  lemma ReplyRows(text: string, row: seq<Json>, ack: Effect)
    requires ack.Send?
    ensures Rows([ClassifyRequest(text)]) == []
    ensures Rows([ClassifyRequest(text), AppendRow(row)]) == [row]
    ensures Rows([ClassifyRequest(text), AppendRow(row), ack]) == [row]
  {
    RowsCons(ClassifyRequest(text), []);
    RowsCons(ClassifyRequest(text), [AppendRow(row)]);
    RowsCons(ClassifyRequest(text), [AppendRow(row), ack]);
    RowsCons(AppendRow(row), []);
    RowsCons(AppendRow(row), [ack]);
    RowsCons(ack, []);
  }

  /** Calls recorded one at a time are the same calls recorded together. */
  lemma Appended<T>(t: seq<T>, a: T, b: T, c: T)
    ensures t + [a] + [b] == t + [a, b]
    ensures t + [a] + [b] + [c] == t + [a, b, c]
  {
  }

  /**
   * The text Telegram receives for a message; `show` stands for Python's
   * `str()` of a JSON value in an f-string.
   */
  function Text(m: Message, show: Json -> string): string
  {
    match m
    case AskWhatItWas(a, c, d) =>
      "You spent " + show(a) + " " + show(c) + " at '" + show(d) + "'. What was it?"
    case Categorized(category) => "Got it. Categorized as: " + category
  }

  /** What one request does: the slot afterwards, the calls made in order, the response. */
  datatype Step = Step(slot: Option<Pending>, effects: seq<Effect>, outcome: Outcome)

  function Ask(p: Pending): Message
  {
    AskWhatItWas(p.amount, p.currency, p.rawDescription)
  }

  /**
   * `handle_notification` once the extraction `info` is known: either
   * nothing but the extraction request happens, or the slot is overwritten
   * with the new transaction, which is then announced to `chatId`.
   */
  function OnNotification(slot: Option<Pending>, chatId: string, notification: string,
                          info: Json, delivered: bool): (s: Step)
    ensures Rows(s.effects) == []
    ensures ReadTransaction(info).Success? && ReadTransaction(info).value.Some? ==>
      && s.slot == ReadTransaction(info).value
      && s.effects == [ExtractRequest(notification), Send(chatId, Ask(s.slot.value))]
    ensures !(ReadTransaction(info).Success? && ReadTransaction(info).value.Some?) ==>
      s.slot == slot && s.effects == [ExtractRequest(notification)]
    ensures ReadTransaction(info).Failure? ==> s.outcome == Raised(ReadTransaction(info).error)
    ensures s.outcome == Ok <==>
      ReadTransaction(info).Success? && (ReadTransaction(info).value.Some? ==> delivered)
    ensures ReadTransaction(info).Success? && ReadTransaction(info).value.Some? && !delivered ==>
      s.outcome == Raised(TransportError)
  {
    match ReadTransaction(info)
    case Failure(e) => Step(slot, [ExtractRequest(notification)], Raised(e))
    case Success(None) => Step(slot, [ExtractRequest(notification)], Ok)
    case Success(Some(p)) =>
      RowsCons(ExtractRequest(notification), [Send(chatId, Ask(p))]);
      RowsCons(Send(chatId, Ask(p)), []);
      Step(Some(p), [ExtractRequest(notification), Send(chatId, Ask(p))],
           if delivered then Ok else Raised(TransportError))
  }

  /**
   * `telegram_webhook` once the model's `answer` is known: the slot is
   * never written; an empty text does nothing; otherwise the category is
   * asked for first, and a row merging the slot with the text and the
   * category is appended only when both the answer and the slot exist.
   */
  function OnReply(slot: Option<Pending>, senderId: string, text: string,
                   answer: Option<string>, appended: bool, delivered: bool): (s: Step)
    ensures s.slot == slot
    ensures text == [] <==> s.effects == []
    ensures text != [] ==> s.effects[0] == ClassifyRequest(text)
    ensures Rows(s.effects) ==
      if text != [] && answer.Some? && slot.Some?
      then [Row(slot.value, text, CoerceCategory(answer.value))] else []
    ensures text != [] && (answer.None? || slot.None?) ==> s.effects == [ClassifyRequest(text)]
    ensures text != [] && answer.Some? && slot.Some? && !appended ==>
      s.effects == [ClassifyRequest(text), AppendRow(Row(slot.value, text, CoerceCategory(answer.value)))]
    ensures text != [] && answer.Some? && slot.Some? && appended ==>
      s.effects == [ClassifyRequest(text), AppendRow(Row(slot.value, text, CoerceCategory(answer.value))),
                    Send(senderId, Categorized(CoerceCategory(answer.value)))]
    ensures text != [] && answer.None? ==> s.outcome == Raised(AttributeError)
    ensures text != [] && answer.Some? && slot.None? ==> s.outcome == Raised(KeyError("amount"))
    ensures s.outcome == Ok <==> text == [] || (answer.Some? && slot.Some? && appended && delivered)
    ensures text != [] && answer.Some? && slot.Some? && !appended ==> s.outcome == Raised(LedgerError)
    ensures text != [] && answer.Some? && slot.Some? && appended && !delivered ==>
      s.outcome == Raised(TransportError)
  {
    if text == [] then Step(slot, [], Ok)
    else if answer.None? then Step(slot, [ClassifyRequest(text)], Raised(AttributeError))
    else if slot.None? then Step(slot, [ClassifyRequest(text)], Raised(KeyError("amount")))
    else
      var category := CoerceCategory(answer.value);
      var row := Row(slot.value, text, category);
      var ack := Send(senderId, Categorized(category));
      ReplyRows(text, row, ack);
      if !appended then Step(slot, [ClassifyRequest(text), AppendRow(row)], Raised(LedgerError))
      else
        Step(slot, [ClassifyRequest(text), AppendRow(row), ack],
             if delivered then Ok else Raised(TransportError))
  }

  /**
   * The acknowledgement names the category written in the row's last cell,
   * and goes to the sender of the reply.
   */
  lemma AcknowledgementMatchesRow(p: Pending, senderId: string, text: string, answer: string,
                                  delivered: bool, show: Json -> string)
    requires text != []
    ensures var s := OnReply(Some(p), senderId, text, Some(answer), true, delivered);
      && s.effects[1].AppendRow? && s.effects[2].Send?
      && s.effects[2].chatId == senderId
      && Text(s.effects[2].message, show) == "Got it. Categorized as: " + s.effects[1].row[4].s
  {
  }

  class Bot {
    /** `TELEGRAM_CHAT_ID`, where notifications are announced. */
    const chatId: string
    /** `last_purchase`: `None` stands for the initial empty dict. */
    var lastPurchase: Option<Pending>
    /** Every outside call attempted so far, oldest first. */
    var trace: seq<Effect>

    constructor(chatId: string)
      ensures this.chatId == chatId && lastPurchase == None && trace == []
    {
      this.chatId := chatId;
      lastPurchase := None;
      trace := [];
    }

    /**
     * `handle_notification`: `completion` is the model's answer for the
     * notification, `parse` stands for `json.loads`, `delivered` tells
     * whether the Telegram request returned normally.
     */
    method HandleNotification(notification: string, completion: Option<string>,
                              parse: string -> Option<Json>, delivered: bool)
      returns (outcome: Outcome)
      modifies this
      ensures var s := OnNotification(old(lastPurchase), chatId, notification,
                                      ExtractTransactionInfo(completion, parse), delivered);
        lastPurchase == s.slot && trace == old(trace) + s.effects && outcome == s.outcome
      ensures Rows(trace) == Rows(old(trace))
    {
      var info := ExtractTransactionInfo(completion, parse);
      ghost var s := OnNotification(lastPurchase, chatId, notification, info, delivered);
      RowsAppend(trace, s.effects);
      ghost var before := trace;
      trace := trace + [ExtractRequest(notification)];
      match ReadTransaction(info)
      case Failure(e) =>
        assert s.effects == [ExtractRequest(notification)];
        outcome := Raised(e);
      case Success(None) =>
        assert s.effects == [ExtractRequest(notification)];
        outcome := Ok;
      case Success(Some(p)) =>
        var ask := Send(chatId, Ask(p));
        Appended(before, ExtractRequest(notification), ask, ask);
        lastPurchase := Some(p);
        trace := trace + [ask];
        assert s.effects == [ExtractRequest(notification), ask];
        outcome := if delivered then Ok else Raised(TransportError);
    }

    /**
     * `telegram_webhook`: `senderId` and `text` come from the update,
     * `completion` is the model's category answer (`None` when the reply
     * has no content), `appended` and `delivered` tell whether the Sheets
     * and Telegram requests returned normally.
     */
    method TelegramWebhook(senderId: string, text: string, completion: Option<string>,
                           appended: bool, delivered: bool)
      returns (outcome: Outcome)
      modifies this
      ensures var s := OnReply(old(lastPurchase), senderId, text, completion, appended, delivered);
        lastPurchase == s.slot && trace == old(trace) + s.effects && outcome == s.outcome
      ensures Rows(trace) == Rows(old(trace)) + Rows(OnReply(old(lastPurchase), senderId, text, completion, appended, delivered).effects)
    {
      ghost var s := OnReply(lastPurchase, senderId, text, completion, appended, delivered);
      RowsAppend(trace, s.effects);
      ghost var before := trace;
      if text == [] {
        assert trace == before + s.effects;
        return Ok;
      }
      trace := trace + [ClassifyRequest(text)];
      if completion.None? {
        assert s.effects == [ClassifyRequest(text)];
        return Raised(AttributeError);
      }
      var category := CoerceCategory(completion.value);
      if lastPurchase.None? {
        assert s.effects == [ClassifyRequest(text)];
        return Raised(KeyError("amount"));
      }
      var row := Row(lastPurchase.value, text, category);
      trace := trace + [AppendRow(row)];
      var ack := Send(senderId, Categorized(category));
      Appended(before, ClassifyRequest(text), AppendRow(row), ack);
      if !appended {
        assert s.effects == [ClassifyRequest(text), AppendRow(row)];
        return Raised(LedgerError);
      }
      trace := trace + [ack];
      assert s.effects == [ClassifyRequest(text), AppendRow(row), ack];
      outcome := if delivered then Ok else Raised(TransportError);
    }
  }

  /**
   * Last writer wins: after two notifications, the second of which is a
   * credit-card transaction, a reply is merged with the second one only,
   * whatever the first one was (even one whose handler raised), whether or
   * not either announcement reached Telegram, and whether or not the append
   * or the acknowledgement of the reply raised.
   */
  method OverwrittenSlot(chatId: string, parse: string -> Option<Json>,
                         first: string, firstCompletion: Option<string>, firstDelivered: bool,
                         second: string, secondCompletion: Option<string>, secondDelivered: bool,
                         latest: Pending, senderId: string, text: string, answer: string,
                         appended: bool, delivered: bool)
    returns (row: seq<Json>)
    requires ReadTransaction(ExtractTransactionInfo(secondCompletion, parse)) == Success(Some(latest))
    requires text != []
    ensures row == Row(latest, text, CoerceCategory(answer))
  {
    var bot := new Bot(chatId);
    var _ := bot.HandleNotification(first, firstCompletion, parse, firstDelivered);
    var _ := bot.HandleNotification(second, secondCompletion, parse, secondDelivered);
    var _ := bot.TelegramWebhook(senderId, text, Some(answer), appended, delivered);
    var rows := Rows(bot.trace);
    row := rows[|rows| - 1];
  }

  /**
   * The slot is read, not consumed: two replies to one notification are
   * both merged with it, whether or not either append or acknowledgement
   * went through.
   */
  lemma StaleSlotReused(p: Pending, senderId: string, text1: string, answer1: string,
                        appended1: bool, delivered1: bool, text2: string, answer2: string,
                        appended2: bool, delivered2: bool)
    requires text1 != [] && text2 != []
    ensures var first := OnReply(Some(p), senderId, text1, Some(answer1), appended1, delivered1);
            var second := OnReply(first.slot, senderId, text2, Some(answer2), appended2, delivered2);
            Rows(first.effects + second.effects)
              == [Row(p, text1, CoerceCategory(answer1)), Row(p, text2, CoerceCategory(answer2))]
  {
    var first := OnReply(Some(p), senderId, text1, Some(answer1), appended1, delivered1);
    assert first.slot == Some(p);
    var second := OnReply(Some(p), senderId, text2, Some(answer2), appended2, delivered2);
    assert Rows(first.effects) == [Row(p, text1, CoerceCategory(answer1))];
    assert Rows(second.effects) == [Row(p, text2, CoerceCategory(answer2))];
    RowsAppend(first.effects, second.effects);
  }

  /**
   * A reply before any transaction was recorded fails at the read of
   * "amount", after the category was asked for and before anything was
   * written or sent.
   */
  method ReplyWithoutPending(chatId: string, senderId: string, text: string, answer: string)
    returns (outcome: Outcome, rows: seq<seq<Json>>)
    requires text != []
    ensures outcome == Raised(KeyError("amount")) && rows == []
  {
    var bot := new Bot(chatId);
    outcome := bot.TelegramWebhook(senderId, text, Some(answer), true, true);
    rows := Rows(bot.trace);
  }
}
