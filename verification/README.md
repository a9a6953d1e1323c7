# credit-card-bot, modelled in Dafny

The bot links three outside services. A phone forwards bank notifications
to `/notification`. A language model extracts the transaction. The bot
stores it in the single slot `last_purchase` and asks on Telegram what the
purchase was. The user's reply reaches `/webhook`. The bot has the language
model pick a category from a fixed list, then appends one row to a Google
Sheet and acknowledges the reply.

This project models the deterministic code around those calls:

- `Unwrap` (unwrap.dfy): the response unwrapper of `extract_transaction_info`.
  The completion is trimmed, a ```` ```json ```` fence is cut down to its
  brace span, and any other ```` ``` ```` fence loses its first and last
  lines. The result goes to the JSON parser, and every failure becomes
  `{"is_credit_card": False}`.
- `Category` (category.dfy): the closed-set coercion of `categorize_purchase`.
- `Pipeline` (pipeline.dfy): the `last_purchase` state machine. The pure step
  functions `OnNotification` and `OnReply` give the slot after one request,
  the outside calls it made in order, and its response. The class `Bot`
  holds the slot and the trace of calls. Its two handler methods update
  them step by step and are proved against the step functions.
- `PyStr` (pystr.dfy): the Python `str` operations this code relies on, with
  Python's rules, over strings of Unicode scalar values. `strip` uses the `str.isspace` code points. Slice
  bounds may be negative or out of range. `find`/`rfind` return -1 when
  nothing is found. `split`/`join` use one separator.
- `JsonValue` (json.dfy): the values `json.loads` returns, with Python
  truthiness and `dict.get`.
- `Wrappers` (wrappers.dfy): `Option` and `Result`.

Outside services are parameters:

- `json.loads` is a partial function `parse: string -> Option<Json>`.
- The language model's reply is an `Option<string>`. `None` stands for a
  message whose `content` is `None`.
- A Telegram send or Sheets append that raises is a boolean
  (`delivered`, `appended`).

Python exceptions that escape a handler become `Raised(...)` outcomes. The
calls made before the raise stay in the trace. The trace records every call
that was attempted. `Rows(trace)` is the sequence of rows whose append was
attempted, oldest first. It is not the sheet's contents: an append that raised
may or may not have stored its row.

The unwrapping rule is modelled as the code writes it. A fence counts as
closed when the trimmed text ends with ```` ``` ````, and no stricter
grammar is imposed. Every reply to a notification reuses the slot, because
the code never clears it. A reply that arrives before any transaction was
recorded raises `KeyError` after the category request, because the code
reads `last_purchase["amount"]` without a guard.

## Model

| member | source | states |
|---|---|---|
| Unwrap.ExtractTransactionInfo | main.py:118-141 | Never fails. With a completion that the parser accepts, the result is exactly the parse of the payload of the trimmed completion. With no completion, or a parse failure, the result is exactly `{"is_credit_card": False}`. |
| Unwrap.Payload | main.py:131-133 | Text that does not both start and end with ```` ``` ```` goes to the parser unchanged. |
| Unwrap.JsonFenced | main.py:122 | Definition: the first branch test. The text starts with ```` ```json ```` and ends with ```` ``` ````. |
| Unwrap.Fenced | main.py:127 | Definition: the second branch test. The text starts with ```` ``` ```` and ends with ```` ``` ````. |
| Unwrap.BraceSpan | main.py:124-126 | Definition: Python's slice of the text from `find('{')` up to `rfind('}') + 1`, with `Find`, `RFind` and `Slice` carrying Python's -1 and bound rules. |
| Unwrap.InnerLines | main.py:129-130 | Definition: the text split on `'\n'`, the slice `[1:-1]` of its lines, joined again with `'\n'`. |
| Unwrap.JsonFencePayload | main.py:122-126 | For a ```` ```json ```` fence, the payload is `content[find('{') : rfind('}')+1]` when `{` comes before the last `}`, and empty otherwise. A non-empty payload starts with `{` and ends with `}`. |
| Unwrap.BraceSpanBetween | main.py:124-126 | For text ending in ```` ``` ````, Python's slice from the first `{` through the last `}` equals that span when it is well ordered. It is empty when either brace is missing, including the `find` = -1 case, or when the braces are inverted. |
| Unwrap.BraceSpanEnds | main.py:124-126 | A non-empty brace span begins with `{` and ends with `}`. |
| Unwrap.InnerLinesBetween | main.py:129-130 | `'\n'.join(lines[1:-1])` is the text strictly between the first and the last line break. It is empty with fewer than two line breaks. |
| Unwrap.GenericFencePayload | main.py:127-130 | A fence not tagged ```` ```json ```` yields the text between its first and last line break: the opening and closing fence lines are dropped. |
| Unwrap.LoneFence | main.py:127-130 | A bare ```` ``` ```` yields the empty payload. |
| Unwrap.JsonFenceFirst | main.py:122-130 | The ```` ```json ```` test comes first. A one-line ```` ```json ```` fence holding braces keeps its brace span, although the line-dropping rule would give nothing. |
| Unwrap.BracelessJsonFence | main.py:122-141 | A ```` ```json ```` fence with no `{`, no `}`, or the last `}` before the first `{` gives the empty payload. Since the parser rejects the empty text, the result is the not-a-card record. |
| Category.CoerceCategory | main.py:72-77 | The result is always one of the 13 labels. It is the trimmed answer when that is a label, and `"Other"` otherwise. |
| Category.LabelsAreTrimmed | main.py:47-51 | No label has whitespace at either end, so trimming keeps every label. |
| Category.PaddedLabel | main.py:72-77 | A label with any surrounding whitespace is recognised and returned without it. |
| Category.BlankIsOther | main.py:72-75 | An empty or all-whitespace answer becomes `"Other"`. |
| Category.CoerceIdempotent | main.py:72-77 | Coercing a coerced label changes nothing. |
| PyStr.Strip | main.py:119 | The result of `strip()` neither starts nor ends with whitespace. |
| PyStr.IsSpace | main.py:119 | Definition: Python's `str.isspace` for one character, as the set of code points 9-13, 28-32, 0x85, 0xA0, 0x1680, 0x2000-0x200A, 0x2028, 0x2029, 0x202F, 0x205F and 0x3000. `strip()` at main.py:72 and :119 removes exactly these. |
| PyStr.StartsWith | main.py:122 | Definition: `str.startswith`. The prefix is no longer than the text and equals the text's first characters. |
| PyStr.EndsWith | main.py:122 | Definition: `str.endswith`. The suffix is no longer than the text and equals the text's last characters. |
| PyStr.StripIsInfix | main.py:119 | `strip()` removes only whitespace: the input is whitespace, then the result, then whitespace. |
| PyStr.StripPadding | main.py:72 | Stripping whitespace from around a text that has no outer whitespace gives that text back. |
| PyStr.StripIdempotent | main.py:72 | `strip()` is idempotent. |
| PyStr.LStrip | main.py:119 | `lstrip()` drops a prefix made only of whitespace and stops at the first non-space. |
| PyStr.RStrip | main.py:119 | `rstrip()` drops a suffix made only of whitespace and stops at the last non-space. |
| PyStr.Find | main.py:124 | `find` returns -1 exactly when the character is absent. Otherwise it returns an index holding the character, with no earlier occurrence. |
| PyStr.RFind | main.py:125 | `rfind` returns -1 exactly when the character is absent. Otherwise it returns an index holding the character, with no later occurrence. |
| PyStr.Clamp | main.py:126 | A slice bound is normalised into `[0, n]`. A bound already in range is kept, and a negative bound counts from the end. A bound below `-n` becomes 0, and a bound past `n` becomes `n`. |
| PyStr.Slice | main.py:126 | An in-range slice is the Dafny subsequence. A slice is empty exactly when its normalised stop does not exceed its normalised start. |
| PyStr.Split | main.py:129 | `split` gives at least one piece, and no piece contains the separator. |
| PyStr.JoinSplit | main.py:129-130 | Joining the pieces of a split gives the text back. |
| PyStr.SplitJoin | main.py:129-130 | Splitting a join of separator-free pieces gives the pieces back. |
| PyStr.Join | main.py:130 | Definition: `sep.join(parts)`: empty for no parts, the part itself for one, otherwise the parts with one separator between neighbours. |
| PyStr.SplitCons | main.py:129 | A separator-free first line splits off as the first piece. |
| PyStr.SplitSnoc | main.py:129 | A separator-free last line splits off as the last piece. |
| PyStr.NoSeparator | main.py:129 | A text without line breaks is a single line. |
| JsonValue.Get | main.py:166 | `dict.get` returns the stored value for a present key, and a falsy value for an absent one. |
| JsonValue.Truthy | main.py:166 | Definition: Python's truth value of a parsed value in an `if`. `None`, `False`, zero, the empty string, the empty list and the empty object are false, and everything else is true. |
| Pipeline.ReadTransaction | main.py:166-169 | A non-object extraction raises `AttributeError`. A falsy `is_credit_card` records nothing. Otherwise the result is exactly the three fields, or a `KeyError` naming the first of `amount`, `currency`, `raw_description` that is missing. |
| Pipeline.NotACardRecordsNothing | main.py:141 | The fallback record never starts a pending transaction. |
| Pipeline.ParseFailureRecordsNothing | main.py:138-141 | A missing completion, or one the parser rejects, never starts a pending transaction. |
| Pipeline.Row | main.py:196-202 | Definition: the five cells written to the sheet, in order: amount, currency, raw description, the reply text, the category. |
| Pipeline.Rows | main.py:196-202 | Definition: the rows of the attempted appends in a trace, oldest first. |
| Pipeline.Text | main.py:177 | Definition: the Telegram texts. The question is `You spent {amount} {currency} at '{raw_description}'. What was it?` (main.py:177), and the acknowledgement is `Got it. Categorized as: {category}` (main.py:204). `show` stands for Python's `str()` of a value. |
| Pipeline.Ask | main.py:177 | Definition: the question about a pending transaction carries its amount, currency and raw description, in that order. |
| Pipeline.OnNotification | main.py:166-179 | A recorded transaction overwrites the slot with exactly its three fields, and one message goes to `CHAT_ID` after the extraction. Otherwise the slot is unchanged and nothing is sent. No row is written. The response is ok unless reading the record or the send raised. A read failure is re-raised as it is, and a failed send raises `TransportError`. |
| Pipeline.OnReply | main.py:189-206 | The slot is never written, and empty text makes no call. Otherwise: classify first; a missing answer raises `AttributeError`; an empty slot raises `KeyError("amount")` with nothing written or sent; else exactly the row `[amount, currency, raw_description, text, category]` is appended, then the acknowledgement goes to the sender. A failed append raises `LedgerError` before the acknowledgement, and a failed acknowledgement raises `TransportError`. |
| Pipeline.RowsAppend | main.py:196-202 | The attempted appends of a longer trace are the old ones followed by the new ones: a later call never rewrites an earlier row. |
| Pipeline.AcknowledgementMatchesRow | main.py:196-204 | After a complete reply, the acknowledgement goes to the sender, and its text names exactly the category written in the last cell of the appended row. |
| Pipeline.Bot.constructor | main.py:28 | The bot starts with an empty slot and no calls made. |
| Pipeline.Bot.HandleNotification | main.py:154-179 | The new slot, the calls appended to the trace and the response are those of `OnNotification`. No append is attempted. |
| Pipeline.Bot.TelegramWebhook | main.py:182-206 | The new slot, the calls appended to the trace and the response are those of `OnReply`. The attempted appends grow by exactly the reply's row, if any. |
| Pipeline.OverwrittenSlot | main.py:166-206 | Last writer wins: after any two notifications whose second is a transaction, a reply is merged with the second. The first may be anything, including one whose handler raised, and either announcement may fail to reach Telegram. The reply's append or acknowledgement may raise too. |
| Pipeline.StaleSlotReused | main.py:196-202 | The slot is read, not consumed: two replies to one notification both produce a row holding that transaction, whatever became of either reply's append and acknowledgement. |
| Pipeline.ReplyWithoutPending | main.py:196-197 | A reply to a fresh bot raises `KeyError("amount")` and writes no row. |

## Left out

- The language-model calls and their prompts (main.py:55-70, 79-116) are not modelled. Their answers are parameters, so nothing is claimed about what the model returns. This includes the amount normalisation the prompt asks for.
- The internals of `json.loads` are not modelled. It is the partial function `parse`. `BracelessJsonFence` assumes, as a precondition, that the parser rejects the empty text.
- The Telegram HTTP request (main.py:39-44) is only a `Send` call in the trace. Whether it raised is the `delivered` flag.
- The Sheets client and its append (main.py:31-36, 143-151) are only an `AppendRow` call in the trace. Whether it raised is the `appended` flag. A raised append still counts as attempted in `Rows`. The model does not say whether the row reached the sheet: the raise may come before anything is sent (reading the credentials or building the client, main.py:32-36) or from the remote call itself.
- FastAPI request parsing (main.py:157-158, 184-187) is not modelled. The notification text, the sender's chat id and the reply text enter as strings. A `text` that is not a string, and the `str()` of a missing chat id, are not modelled.
- Configuration from the environment (main.py:13-22) is not modelled. `CHAT_ID` is a string fixed when the bot is built, so the `None` it would be without configuration is not modelled.
- `print` logging (main.py:116, 136, 139-140, 159-160, 164, 194) has no effect on the modelled state.
- Exceptions raised by the language-model client are not modelled. Only a `None` reply content is modelled.
- Python's `str()` of the JSON values inside the Telegram texts is the parameter `show` of `Pipeline.Text`.
- JSON numbers are reals. NaN and infinities, which `json.loads` also accepts, are not modelled.
- JSON numbers are reals, so Python's `int` and `float` are merged. `json.loads` gives `2349` for "2349" and `2349.0` for "2349.0", and the f-string at main.py:177 prints the two differently. `show` receives a `JNum` in both cases, so the model does not tell these texts apart.
- Strings are sequences of Unicode scalar values. A Python `str` can also hold a lone surrogate code point, which a Dafny string cannot, so such text is not modelled.
- Concurrency between the two endpoints is not modelled: requests are handled one at a time.
