/**
  The `POST /chat` handler: request gate, retry loop, post-validation of the
  parsed answer and resolution of its `product_id` against the catalog.
 */
module Chat {
  import opened Options
  import opened Json
  import opened Catalog
  import opened Upstream

  /**
    The three response shapes the handler sends, and `Thrown`: the handler
    itself throws before sending anything, so what the client sees is left to
    the surrounding server.
   */
  datatype Response =
    | BadRequest(error: string)
    | ServerError(apology: string, error: string)
    | Recommendation(reply: Value, product: Option<Product>)
    | Thrown(error: string)

  function Status(r: Response): int
    requires !r.Thrown?
  {
    match r
    case BadRequest(_) => 400
    case ServerError(_, _) => 500
    case Recommendation(_, _) => 200
  }

  /** One handled request: the response and the upstream calls and waits it took. */
  datatype Exchange = Exchange(response: Response, attempts: nat, delays: seq<nat>)

  const MessageRequired := "Message is required."
  const UpstreamFailureReply := "AI 서버와 통신 중 문제가 발생했습니다. API 키나 서버 로그를 확인해 주세요."
  const NoRecommendationReply := "AI가 추천 결과를 생성하지 못했습니다. 질문을 구체적으로 해 주세요."
  const NoProductIdError := "No product ID (number) in final response."
  const ConversionError := "TypeError: Cannot convert object to primitive value"

  /** A message that passes the gate and can be put into the user query text. */
  predicate Accepted(message: Value)
  {
    Truthy(message) && !ToStringThrows(message)
  }

  /**
    Post-validation and resolution of the parsed answer: `product_id` must be
    a JavaScript number (no coercion), and is then looked up by `===` on the
    catalog ids; a miss gives a `null` product. The reply is passed through.
   */
  function Resolve(catalog: seq<Product>, parsed: Value): (r: Response)
    ensures r.Recommendation? <==> Truthy(parsed) && Get(parsed, "product_id").Number?
    ensures !r.Recommendation? ==> r == ServerError(NoRecommendationReply, NoProductIdError)
    ensures r.Recommendation? ==> r.reply == Get(parsed, "reply")
    ensures r.Recommendation? && r.product.Some? ==>
              r.product.value in catalog && Get(parsed, "product_id") == Number(r.product.value.id)
    ensures r.Recommendation? && r.product.None? ==>
              forall p :: p in catalog ==> Get(parsed, "product_id") != Number(p.id)
  {
    if !Truthy(parsed) || !Get(parsed, "product_id").Number? then
      ServerError(NoRecommendationReply, NoProductIdError)
    else
      Recommendation(Get(parsed, "reply"), Find(catalog, Get(parsed, "product_id").n))
  }

  /**
    The handler for a request whose body's `message` field is `message`. After
    the gate, the message is put into the user query text outside the `try`,
    so a message whose string conversion throws ends the handler before any
    call upstream.
   */
  function Handle(message: Value, upstream: seq<Attempt>, parse: string -> ParseOutcome): (x: Exchange)
    requires MaxAttempts <= |upstream|
    ensures x.response.BadRequest? <==> !Truthy(message)
    ensures x.response.Thrown? <==> Truthy(message) && ToStringThrows(message)
    ensures x.attempts == 0 <==> !Accepted(message)
    ensures x.attempts <= MaxAttempts
    ensures x.response.Recommendation? && x.response.product.Some? ==> x.response.product.value in Products
  {
    if !Truthy(message) then Exchange(BadRequest(MessageRequired), 0, [])
    else if ToStringThrows(message) then Exchange(Thrown(ConversionError), 0, [])
    else
      var run := Retry(upstream, parse);
      match run.result
      case Failed(message) => Exchange(ServerError(UpstreamFailureReply, message), run.attempts, run.delays)
      case Succeeded(parsed) => Exchange(Resolve(Products, parsed), run.attempts, run.delays)
  }

  /** A falsy message (absent, `null`, empty, `0`, `false`) is refused with 400 before any call upstream. */
  lemma FalsyMessageIsRejected(message: Value, upstream: seq<Attempt>, parse: string -> ParseOutcome)
    requires MaxAttempts <= |upstream|
    requires message == Undefined || message == Null || message == Str("")
    ensures Handle(message, upstream, parse) == Exchange(BadRequest(MessageRequired), 0, [])
    ensures Status(Handle(message, upstream, parse).response) == 400
  {
  }

  /** A whitespace-only message is not refused: it goes upstream. */
  lemma WhitespaceMessageIsAccepted(upstream: seq<Attempt>, parse: string -> ParseOutcome)
    requires MaxAttempts <= |upstream|
    ensures Handle(Str(" "), upstream, parse).attempts >= 1
    ensures Status(Handle(Str(" "), upstream, parse).response) != 400
  {
  }

  /**
    Three failed attempts give a 500 with the fixed communication-error reply
    whose error is the message of the third attempt's error.
   */
  lemma ExhaustionIsServerError(message: Value, upstream: seq<Attempt>, parse: string -> ParseOutcome)
    requires Accepted(message) && MaxAttempts <= |upstream|
    requires forall j :: 0 <= j < MaxAttempts ==> RunAttempt(upstream[j], parse).Failed?
    ensures var x := Handle(message, upstream, parse);
            && x.response == ServerError(UpstreamFailureReply, RunAttempt(upstream[MaxAttempts - 1], parse).message)
            && Status(x.response) == 500
            && x.attempts == MaxAttempts
            && x.delays == [2000, 4000]
  {
    ExhaustsAfterThreeFailures(upstream, parse);
  }

  /**
    A parsed answer whose `product_id` is not a number, e.g. the string "1",
    is a 500 with no product, and it is not retried: the loop already ended.
   */
  lemma NonNumericProductIdIsRejected(
    message: Value, upstream: seq<Attempt>, parse: string -> ParseOutcome, i: nat)
    requires Accepted(message) && i < MaxAttempts <= |upstream|
    requires forall j :: 0 <= j < i ==> RunAttempt(upstream[j], parse).Failed?
    requires RunAttempt(upstream[i], parse).Succeeded?
    requires !Get(RunAttempt(upstream[i], parse).value, "product_id").Number?
    ensures var x := Handle(message, upstream, parse);
            && x.response == ServerError(NoRecommendationReply, NoProductIdError)
            && Status(x.response) == 500
            && x.attempts == i + 1
            && x.delays == [2000, 4000][..i]
  {
    StopsAtFirstSuccess(upstream, parse, i);
  }

  /**
    A numeric `product_id` gives a 200 whose reply is the parsed reply
    unchanged and whose product is the unique catalog entry with that id, or
    `null` when no entry has it. There is no fallback product.
   */
  lemma NumericProductIdIsResolved(
    message: Value, upstream: seq<Attempt>, parse: string -> ParseOutcome, i: nat, id: int)
    requires Accepted(message) && i < MaxAttempts <= |upstream|
    requires forall j :: 0 <= j < i ==> RunAttempt(upstream[j], parse).Failed?
    requires RunAttempt(upstream[i], parse).Succeeded?
    requires Get(RunAttempt(upstream[i], parse).value, "product_id") == Number(id)
    ensures var x := Handle(message, upstream, parse);
            && Status(x.response) == 200
            && x.response.reply == Get(RunAttempt(upstream[i], parse).value, "reply")
            && (1 <= id <= 5 ==> x.response.product == Some(Products[id - 1]))
            && (!(1 <= id <= 5) ==> x.response.product == None)
            && x.attempts == i + 1
            && x.delays == [2000, 4000][..i]
  {
    StopsAtFirstSuccess(upstream, parse, i);
    ProductsHaveDistinctIds();
    if 1 <= id <= 5 {
      FindIsUnique(Products, id, id - 1);
    }
  }

  /**
    An example: the first call returns the text of
    `{"reply": "이 제품을 추천해요", "product_id": 1}` and the handler answers
    with that reply and the first catalog entry, after a single call.
   */
  lemma RecommendationExample(upstream: seq<Attempt>, parse: string -> ParseOutcome, text: string)
    requires MaxAttempts <= |upstream|
    requires text != "" && upstream[0] == Reply(200, Envelope(Some(text)))
    requires parse(text) == Parsed(Object(map["reply" := Str("이 제품을 추천해요"), "product_id" := Number(1)]))
    ensures Handle(Str("내 강아지는 작아요"), upstream, parse)
            == Exchange(Recommendation(Str("이 제품을 추천해요"), Some(LeatherHarness)), 1, [])
  {
    var parsed := Object(map["reply" := Str("이 제품을 추천해요"), "product_id" := Number(1)]);
    assert RunAttempt(upstream[0], parse) == Succeeded(parsed);
    StopsAtFirstSuccess(upstream, parse, 0);
    ProductsHaveDistinctIds();
    FindIsUnique(Products, 1, 0);
  }

  /**
    A message object that owns a `toString` key passes the gate but makes the
    user query text throw: no call upstream and no response from the handler.
   */
  lemma ToStringKeyMessageThrows(upstream: seq<Attempt>, parse: string -> ParseOutcome)
    requires MaxAttempts <= |upstream|
    ensures Handle(Object(map["toString" := Number(1)]), upstream, parse)
            == Exchange(Thrown(ConversionError), 0, [])
    ensures Handle(Array([Str("a"), Object(map["toString" := Null])]), upstream, parse)
            == Exchange(Thrown(ConversionError), 0, [])
  {
    var inner := Object(map["toString" := Null]);
    assert ToStringThrows([Str("a"), inner][1]);
  }

  /**
    The handler with the gate refusing, as the 400 `Message is required.`,
    every message that cannot be turned into query text.
   */
  function HandleChecked(message: Value, upstream: seq<Attempt>, parse: string -> ParseOutcome): (x: Exchange)
    requires MaxAttempts <= |upstream|
    ensures !x.response.Thrown?
    ensures x.response.BadRequest? <==> !Accepted(message)
    ensures x.response.BadRequest? ==> x == Exchange(BadRequest(MessageRequired), 0, [])
    ensures Accepted(message) ==> x == Handle(message, upstream, parse)
    ensures x.attempts == 0 <==> x.response.BadRequest?
  {
    if !Accepted(message) then Exchange(BadRequest(MessageRequired), 0, [])
    else Handle(message, upstream, parse)
  }
}
