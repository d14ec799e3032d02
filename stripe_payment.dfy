/**
 * The two HTTP functions of the payment backend: `createPaymentIntent`, which
 * answers a browser's request for a card payment intent, and `stripeWebhook`,
 * which acknowledges the payment processor's event notifications.
 *
 * The processor is an oracle: creating an intent maps the intent parameters to
 * a created intent or to the processor's error, and the webhook's signature
 * check maps the raw body, the signature header and the secret to a verified
 * event or to the rejection message.
 */
module StripePayment {
  import opened Js

  /** A JSON value the request body may carry as `amount`. A number is the integer value
    * `JSON.parse` produced (fractional numbers, arrays and objects are not modelled). */
  datatype JsonValue = Absent | Null | Bool(b: bool) | Number(n: int) | Text(s: string)

  /** `!!v`. */
  predicate JsonTruthy(v: JsonValue)
  {
    match v
    case Absent => false
    case Null => false
    case Bool(b) => b
    case Number(n) => n != 0
    case Text(s) => s != ""
  }

  /** `String(v)`, the text `parseInt` reads. */
  function JsString(v: JsonValue): string
  {
    match v
    case Absent => "undefined"
    case Null => "null"
    case Bool(b) => if b then "true" else "false"
    case Number(n) => NumberToString(n)
    case Text(s) => s
  }

  /** `parseInt(v)`; None is NaN. */
  function ParseAmount(v: JsonValue): Option<int>
  {
    ParseInt(JsString(v))
  }

  /** An HTTP request: its method and the `amount` of its JSON body. */
  datatype Request = Request(verb: string, amount: JsonValue)

  /** What the endpoint asks the processor to create. */
  datatype IntentParams = IntentParams(amount: Option<int>, currency: string, paymentMethodTypes: seq<string>)

  datatype Intent = Intent(id: string, clientSecret: string)

  /** The processor's error: its `message`, `code` and `type`. */
  datatype ProcessorError = ProcessorError(message: string, code: Option<string>, kind: Option<string>)

  datatype CreateResult = Created(intent: Intent) | CreateFailed(error: ProcessorError)

  /** The bodies the two functions send. */
  datatype Body =
    | PlainText(text: string)
    | ClientSecretJson(clientSecret: string)
    | ErrorJson(error: string)
    | ProcessorErrorJson(message: string, code: Option<string>, kind: Option<string>)
    | ReceivedJson

  datatype Response = Response(status: int, headers: map<string, string>, body: Body)

  /** A response together with the intent creations requested from the processor while
    * answering, including one the processor refuses. */
  datatype Handled = Handled(response: Response, requested: seq<IntentParams>)

  const CorsHeaders: map<string, string> := map[
    "Access-Control-Allow-Origin" := "*",
    "Access-Control-Allow-Methods" := "GET, POST, OPTIONS",
    "Access-Control-Allow-Headers" := "Content-Type, Authorization"]

  /** `createPaymentIntent`. */
  function CreatePaymentIntent(req: Request, create: IntentParams -> CreateResult): (h: Handled)
    ensures h.response.headers == CorsHeaders
    ensures |h.requested| <= 1
    ensures h.requested != [] <==> req.verb == "POST" && JsonTruthy(req.amount)
    ensures h.response.status == 200 ==> h.requested != [] && create(h.requested[0]).Created?
  {
    if req.verb == "OPTIONS" then Handled(Response(204, CorsHeaders, PlainText("")), [])
    else if req.verb != "POST" then Handled(Response(405, CorsHeaders, PlainText("Method Not Allowed")), [])
    else if !JsonTruthy(req.amount) then Handled(Response(400, CorsHeaders, ErrorJson("Amount is required")), [])
    else
      var params := IntentParams(ParseAmount(req.amount), "usd", ["card"]);
      match create(params)
      case Created(intent) => Handled(Response(200, CorsHeaders, ClientSecretJson(intent.clientSecret)), [params])
      case CreateFailed(e) => Handled(Response(500, CorsHeaders, ProcessorErrorJson(e.message, e.code, e.kind)), [params])
  }

  /** Every response carries the three CORS headers, whatever the branch, and its status is
    * one of 204, 405, 400, 200 and 500. */
  lemma EveryResponseHasCors(req: Request, create: IntentParams -> CreateResult)
    ensures var h := CreatePaymentIntent(req, create);
      && h.response.headers == CorsHeaders
      && h.response.status in {204, 405, 400, 200, 500}
      && |h.requested| <= 1
  {
  }

  /** A preflight request is answered 204 with an empty body and creates nothing. */
  lemma PreflightCreatesNothing(amount: JsonValue, create: IntentParams -> CreateResult)
    ensures CreatePaymentIntent(Request("OPTIONS", amount), create)
      == Handled(Response(204, CorsHeaders, PlainText("")), [])
  {
  }

  /** Any method other than OPTIONS and POST is answered 405 and creates nothing. */
  lemma OtherMethodsRefused(req: Request, create: IntentParams -> CreateResult)
    requires req.verb != "OPTIONS" && req.verb != "POST"
    ensures CreatePaymentIntent(req, create)
      == Handled(Response(405, CorsHeaders, PlainText("Method Not Allowed")), [])
  {
  }

  /** A POST whose amount is falsy (missing, null, false, 0 or "") is answered 400 and creates nothing. */
  lemma FalsyAmountRefused(amount: JsonValue, create: IntentParams -> CreateResult)
    requires amount in {Absent, Null, Bool(false), Number(0), Text("")}
    ensures CreatePaymentIntent(Request("POST", amount), create)
      == Handled(Response(400, CorsHeaders, ErrorJson("Amount is required")), [])
  {
  }

  /** A POST with a truthy amount creates exactly one intent, in dollars, card only, for
    * `parseInt(amount)`, and answers 200 with its client secret, or 500 with the processor's
    * message, code and type. */
  lemma TruthyAmountCreatesOneIntent(amount: JsonValue, create: IntentParams -> CreateResult)
    requires JsonTruthy(amount)
    ensures var h := CreatePaymentIntent(Request("POST", amount), create);
      var params := IntentParams(ParseAmount(amount), "usd", ["card"]);
      && h.requested == [params]
      && (create(params).Created? ==>
            h.response == Response(200, CorsHeaders, ClientSecretJson(create(params).intent.clientSecret)))
      && (create(params).CreateFailed? ==>
            var e := create(params).error;
            h.response == Response(500, CorsHeaders, ProcessorErrorJson(e.message, e.code, e.kind)))
  {
  }

  /** A non-zero JSON number below 10^21 in magnitude is charged as that very number of
    * minor units: `parseInt(String(n)) == n`. */
  lemma {:induction false} NumberAmountChargedExactly(n: int, create: IntentParams -> CreateResult)
    requires n != 0 && n < ExponentFrom && -n < ExponentFrom
    ensures CreatePaymentIntent(Request("POST", Number(n)), create).requested
      == [IntentParams(Some(n), "usd", ["card"])]
  {
    TruthyAmountCreatesOneIntent(Number(n), create);
    assert NumberToString(n) == IntToString(n);
    ParseIntOfIntToString(n);
  }

  /** From 10^21 on, `String(n)` is in exponent notation and `parseInt` reads only its leading
    * digit: the amount 1e21 is charged as 1 minor unit. */
  lemma {:induction false} HugeNumberAmountChargedLeadingDigit(n: int, create: IntentParams -> CreateResult)
    requires n >= ExponentFrom || -n >= ExponentFrom
    ensures var d: int := LeadingDigit(if n < 0 then -n else n);
      && 1 <= d <= 9
      && CreatePaymentIntent(Request("POST", Number(n)), create).requested
           == [IntentParams(Some(if n < 0 then -d else d), "usd", ["card"])]
  {
    TruthyAmountCreatesOneIntent(Number(n), create);
    ParseIntOfHugeNumber(n);
  }

  /** The body `{"amount": 1e21}` creates an intent for 1 minor unit. */
  lemma OneE21ChargedAsOne(create: IntentParams -> CreateResult)
    ensures CreatePaymentIntent(Request("POST", Number(ExponentFrom)), create).requested
      == [IntentParams(Some(1), "usd", ["card"])]
  {
    ExponentFromIsPower();
    LeadingDigitOfPower(21);
    HugeNumberAmountChargedLeadingDigit(ExponentFrom, create);
  }

  /** A text amount is read as `parseInt` reads it: after leading white space and a sign, the
    * longest run of decimal digits, so "49.99" is charged as 49 minor units. */
  lemma {:induction false} TextAmountTruncated(ws: string, sign: string, d: string, rest: string, create: IntentParams -> CreateResult)
    requires forall i :: 0 <= i < |ws| ==> IsJsSpace(ws[i])
    requires sign in {"", "+", "-"}
    requires d != [] && forall i :: 0 <= i < |d| ==> IsDigit(d[i])
    requires rest == [] || !IsDigit(rest[0])
    requires !(d == "0" && rest != [] && (rest[0] == 'x' || rest[0] == 'X'))
    ensures CreatePaymentIntent(Request("POST", Text(ws + sign + d + rest)), create).requested
      == [IntentParams(Some(Signed(sign, DigitsValue(d))), "usd", ["card"])]
  {
    DigitAmountParsed(ws, sign, d, rest);
    TextAmountCreatesIntent(ws + sign + d + rest, Some(Signed(sign, DigitsValue(d))), create);
  }

  lemma DigitAmountParsed(ws: string, sign: string, d: string, rest: string)
    requires forall i :: 0 <= i < |ws| ==> IsJsSpace(ws[i])
    requires sign in {"", "+", "-"}
    requires d != [] && forall i :: 0 <= i < |d| ==> IsDigit(d[i])
    requires rest == [] || !IsDigit(rest[0])
    requires !(d == "0" && rest != [] && (rest[0] == 'x' || rest[0] == 'X'))
    ensures var t := ws + sign + d + rest;
      t != [] && ParseAmount(Text(t)) == Some(Signed(sign, DigitsValue(d)))
  {
    var t := ws + sign + d + rest;
    assert ParseAmount(Text(t)) == Some(Signed(sign, DigitsValue(d))) by {
      ParseIntReadsDigits(ws, sign, d, rest);
    }
    assert |t| >= |d| > 0;
  }

  /** A text amount starting with `0x` (after white space and a sign) is read in base sixteen. */
  lemma {:induction false} HexTextAmountReadInBaseSixteen(ws: string, sign: string, x: char, h: string, rest: string,
                                       create: IntentParams -> CreateResult)
    requires forall i :: 0 <= i < |ws| ==> IsJsSpace(ws[i])
    requires sign in {"", "+", "-"} && x in {'x', 'X'}
    requires h != [] && forall i :: 0 <= i < |h| ==> IsHexDigit(h[i])
    requires rest == [] || !IsHexDigit(rest[0])
    ensures CreatePaymentIntent(Request("POST", Text(ws + sign + ['0', x] + h + rest)), create).requested
      == [IntentParams(Some(Signed(sign, HexValue(h))), "usd", ["card"])]
  {
    HexAmountParsed(ws, sign, x, h, rest);
    TextAmountCreatesIntent(ws + sign + ['0', x] + h + rest, Some(Signed(sign, HexValue(h))), create);
  }

  lemma HexAmountParsed(ws: string, sign: string, x: char, h: string, rest: string)
    requires forall i :: 0 <= i < |ws| ==> IsJsSpace(ws[i])
    requires sign in {"", "+", "-"} && x in {'x', 'X'}
    requires h != [] && forall i :: 0 <= i < |h| ==> IsHexDigit(h[i])
    requires rest == [] || !IsHexDigit(rest[0])
    ensures var t := ws + sign + ['0', x] + h + rest;
      t != [] && ParseAmount(Text(t)) == Some(Signed(sign, HexValue(h)))
  {
    var t := ws + sign + ['0', x] + h + rest;
    assert ParseAmount(Text(t)) == Some(Signed(sign, HexValue(h))) by {
      ParseIntReadsHex(ws, sign, x, h, rest);
    }
    assert |t| >= 2;
  }

  /** A non-empty text amount that `parseInt` reads as `v` creates one intent for `v`. */
  lemma TextAmountCreatesIntent(t: string, v: Option<int>, create: IntentParams -> CreateResult)
    requires t != [] && ParseAmount(Text(t)) == v
    ensures CreatePaymentIntent(Request("POST", Text(t)), create).requested == [IntentParams(v, "usd", ["card"])]
  {
    TruthyAmountCreatesOneIntent(Text(t), create);
  }

  /** A non-empty text amount without a number at its start (after white space) passes the
    * amount check but is sent to the processor as NaN. */
  lemma {:induction false} TextWithoutNumberSentAsNaN(s: string, create: IntentParams -> CreateResult)
    requires s != []
    requires TrimStart(s) == []
      || (!IsDigit(TrimStart(s)[0]) && TrimStart(s)[0] != '-' && TrimStart(s)[0] != '+')
    ensures CreatePaymentIntent(Request("POST", Text(s)), create).requested
      == [IntentParams(None, "usd", ["card"])]
  {
    assert ParseAmount(Text(s)) == None by {
      ParseIntNoDigits(s);
    }
    TruthyAmountCreatesOneIntent(Text(s), create);
  }

  // ---------------------------------------------------------------------------
  // The webhook
  // ---------------------------------------------------------------------------

  datatype Event = Event(kind: string, objectId: string)

  /** The outcome of the processor's signature check. */
  datatype Verification = Verified(event: Event) | Rejected(message: string)

  /** `stripeWebhook`: the handler only logs known event types, so every verified event is
    * acknowledged alike. */
  function StripeWebhook(rawBody: string, signature: Option<string>, secret: string,
                         construct: (string, Option<string>, string) -> Verification): (r: Response)
    ensures r.status == 200 <==> construct(rawBody, signature, secret).Verified?
    ensures r.status == 400 <==> construct(rawBody, signature, secret).Rejected?
  {
    match construct(rawBody, signature, secret)
    case Verified(_) => Response(200, map[], ReceivedJson)
    case Rejected(message) => Response(400, map[], PlainText("Webhook Error: " + message))
  }

  /** The webhook answers 400 with the rejection message exactly when verification fails,
    * and 200 `{received: true}` otherwise. */
  lemma WebhookOutcomes(rawBody: string, signature: Option<string>, secret: string,
                        construct: (string, Option<string>, string) -> Verification)
    ensures var r := StripeWebhook(rawBody, signature, secret, construct);
      var v := construct(rawBody, signature, secret);
      && (r.status == 200 <==> v.Verified?)
      && (v.Rejected? ==> r == Response(400, map[], PlainText("Webhook Error: " + v.message)))
      && (v.Verified? ==> r == Response(200, map[], ReceivedJson))
  {
  }

  /** The answer to a verified event does not depend on the event: known and unknown types
    * are acknowledged alike. */
  lemma WebhookIgnoresEventType(rawBody: string, signature: Option<string>, secret: string,
                                c1: (string, Option<string>, string) -> Verification,
                                c2: (string, Option<string>, string) -> Verification)
    requires c1(rawBody, signature, secret).Verified? && c2(rawBody, signature, secret).Verified?
    ensures StripeWebhook(rawBody, signature, secret, c1) == StripeWebhook(rawBody, signature, secret, c2)
  {
  }
}
