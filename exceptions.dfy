/** The error taxonomy shared by every component: `TradingBotError` and its
    three kinds, plus the foreign exceptions the core lets through. */
module Exceptions {
  import opened Wrappers
  import Text

  /** The detail every connector reports when used before `initialize()`. */
  const NotInitializedDetail := "Connector not initialized. Call initialize() first."

  datatype Error =
    /** A venue is unreachable, refused authentication, or was used before it was initialized. */
    | ConnectorError(connectorName: string, detail: string)
    /** Placing, cancelling or looking up an order failed. */
    | OrderError(detail: string, orderId: Option<string> := None)
    /** Settings are invalid or missing. */
    | ConfigError(detail: string)
    /** A record failed its field validation (pydantic); not a `TradingBotError`. */
    | ValidationError(field: string)
    /** Any other exception (`ValueError`, `AttributeError`, an SDK error that is
        not caught); not a `TradingBotError`. */
    | OtherError(detail: string)
  {
    /** The three kinds that derive from `TradingBotError`. */
    predicate IsTradingBotError() {
      ConnectorError? || OrderError? || ConfigError?
    }

    /** `str(e)`: a connector error is prefixed with its venue in brackets;
        an order or config error carries its message unchanged. */
    function Message(): string {
      match this
      case ConnectorError(name, detail) => "[" + name + "] " + detail
      case OrderError(detail, _) => detail
      case ConfigError(detail) => detail
      case ValidationError(field) => field
      case OtherError(detail) => detail
    }
  }

  /** Recovers venue and detail from a connector error's message. */
  function ParseConnectorMessage(msg: string): (r: Option<(string, string)>)
    ensures r.Some? ==> ConnectorError(r.value.0, r.value.1).Message() == msg
  {
    if |msg| == 0 || msg[0] != '[' then None
    else match Text.IndexOf(msg[1..], ']')
      case None => None
      case Some(i) =>
        if i + 2 < |msg| && msg[i + 2] == ' ' then
          var name, detail := msg[1..i + 1], msg[i + 3..];
          assert msg[1..][i] == ']';
          assert msg == "[" + name + "] " + detail;
          Some((name, detail))
        else None
  }

  /** A connector error's message names its venue and detail unambiguously
      when the venue name holds no `]`. */
  lemma ConnectorMessageRoundTrip(name: string, detail: string)
    requires ']' !in name
    ensures ParseConnectorMessage(ConnectorError(name, detail).Message()) == Some((name, detail))
  {
    var msg := ConnectorError(name, detail).Message();
    assert msg[1..] == name + "] " + detail;
    assert (name + "] " + detail)[..|name|] == name;
    Text.IndexOfFirst(msg[1..], ']', |name|);
    assert msg[1..|name| + 1] == name;
    assert msg[|name| + 3..] == detail;
  }

  /** An order error's message is exactly the text it was raised with, and
      its order id defaults to `None`. */
  lemma OrderErrorFields(detail: string)
    ensures OrderError(detail).Message() == detail
    ensures OrderError(detail).orderId == None
    ensures OrderError(detail).IsTradingBotError()
  {
  }

  /** Every connector, order and config error is a `TradingBotError`;
      validation and foreign errors are not. */
  lemma TradingBotErrorKinds(e: Error)
    ensures e.IsTradingBotError() <==> !(e.ValidationError? || e.OtherError?)
  {
  }
}
