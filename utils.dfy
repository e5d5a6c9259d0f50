/**
  The shared helpers of spotify/utils.py: composing a response message with
  an optional error, routing it to the Telegram logging or alerting channel,
  and mapping the outcome of a table lookup to a boolean.
*/
module Utils {
  import opened Wrappers
  import opened Text

  /** The two Telegram chats: `TELEGRAM_ALERTING_CHANNEL_ID` and
      `TELEGRAM_LOGGING_CHANNEL_ID`. */
  datatype Channel = Alerting | Logging

  /** One `sendMessage` request: the chat it goes to and its text. */
  datatype Notification = Notification(channel: Channel, text: string)

  /** The optional error argument `e` of `send_response`: the default `""`
      (or any other string), or an exception object whose `str()` is `shown`.
      An exception object is never equal to `""`. */
  datatype Detail = Plain(s: string) | Exception(shown: string)

  /** The text `f"{e}"` gives. */
  function Shown(e: Detail): string
  {
    match e
    case Plain(s) => s
    case Exception(shown) => shown
  }

  /** The HTTP-style result of a handler: its status code and the `message` of its JSON body. */
  datatype Response = Response(statusCode: int, message: string)

  /** What `send_response` does: the response it returns and the message it sends. */
  datatype Sent = Sent(response: Response, notification: Notification)

  /** How an external call ended: with a result, or by raising an exception
      whose `str()` is `shown`. */
  datatype Call<+T> = Returns(value: T) | Raises(shown: string)

  /** How a handler invocation ended: by returning a response, or by an
      exception nothing catches. */
  datatype Ending = Returned(response: Response) | Crashed

  /** `f"{message}{sep}{e}"` with `sep` the newline exactly when `e != ""`. */
  function Compose(message: string, e: Detail): (text: string)
    ensures e == Plain("") ==> text == message
    ensures e != Plain("") ==> text == message + "\n" + Shown(e)
  {
    var sep := if e == Plain("") then "" else "\n";
    message + sep + Shown(e)
  }

  /** When the message is one line, its first line is the message and what
      follows the newline is the error text: the two parts can be told apart. */
  lemma ComposeRecoversParts(message: string, e: Detail)
    requires '\n' !in message
    ensures SplitOn(Compose(message, e), {'\n'})[0] == message
    ensures e != Plain("") ==> Compose(message, e)[|message| + 1..] == Shown(e)
    ensures e == Plain("") ==> |SplitOn(Compose(message, e), {'\n'})| == 1
  {
    var text := Compose(message, e);
    var rest := text[|message|..];
    assert text == message + rest;
    SplitPrefix(message, rest, {'\n'});
    if e == Plain("") {
      assert rest == "";
      SplitSizes(message, {'\n'});
      NoSeparatorNoCount(message, {'\n'});
    } else {
      assert rest == "\n" + Shown(e);
      assert rest[0] == '\n';
    }
  }

  /** A text without a separator has none to count. */
  lemma {:induction false} NoSeparatorNoCount(s: string, cs: set<char>)
    requires forall c :: c in s ==> c !in cs
    ensures Count(s, cs) == 0
    decreases |s|
  {
    if s != [] {
      assert s[0] in s;
      assert forall c :: c in s[1..] ==> c in s;
      NoSeparatorNoCount(s[1..], cs);
    }
  }

  /** `send_telegram_message`: the alerting chat when `is_alert`, the logging chat otherwise. */
  function SendTelegramMessage(message: string, isAlert: bool): (n: Notification)
    ensures n.channel == Alerting <==> isAlert
    ensures n.text == message
  {
    Notification(if isAlert then Alerting else Logging, message)
  }

  /** `send_response`: the composed message goes both to Telegram and into
      the response body; it goes to the alerting chat exactly when the status
      is neither 200 nor 202, and the status is returned unchanged. */
  function SendResponse(statusCode: int, message: string, e: Detail): (r: Sent)
    ensures r.response.statusCode == statusCode
    ensures r.response.message == Compose(message, e)
    ensures r.notification.text == r.response.message
    ensures r.notification.channel == Alerting <==> statusCode != 200 && statusCode != 202
  {
    var text := Compose(message, e);
    var alert := statusCode !in [200, 202];
    Sent(Response(statusCode, text), SendTelegramMessage(text, alert))
  }

  /** How `client.get_table` ended. */
  datatype TableLookup = Found | NotFound | Failed(shown: string)

  /** The text of the alert `table_exists` sends when the lookup fails for
      another reason than NotFound. */
  function TableAlertText(tableId: string, shown: string): string
  {
    "An error occurred while checking for table '" + tableId + "': " + shown
  }

  /** `table_exists`: whether the table exists, and the alert sent, if any. */
  function TableExists(outcome: TableLookup, tableId: string): (r: (bool, Option<Notification>))
    ensures r.0 <==> outcome == Found
    ensures r.1.Some? <==> outcome.Failed?
    ensures outcome.Failed? ==> r.1 == Some(Notification(Alerting, TableAlertText(tableId, outcome.shown)))
  {
    match outcome
    case Found => (true, None)
    case NotFound => (false, None)
    case Failed(shown) => (false, Some(SendTelegramMessage(TableAlertText(tableId, shown), true)))
  }
}
