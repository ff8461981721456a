/**
  The part of `lib/generateText.ts` that turns the quote service's reply into a
  quote: the status check, the choice between the `data` wrapper and the direct
  `{quote, author}` shape, and the `"Unknown"` author default. The request and
  the JSON parsing are not modelled; the parsed reply is the input.
*/
module GenerateText {
  import opened Wrappers

  /** The value under a key of the parsed reply: the key is missing, or holds
      `null`, or holds a string. */
  datatype Field = Absent | Null | Str(s: string)

  /** An object that may carry `quote` and `author` keys. */
  datatype QuoteObject = QuoteObject(quote: Field, author: Field)

  /** The value of a `data` key: one object, an array of objects, or `null`. */
  datatype Data = Single(obj: QuoteObject) | List(items: seq<QuoteObject>) | NullData

  /** The parsed body: an optional `data` key and optional top-level `quote`/`author` keys. */
  datatype Body = Body(data: Option<Data>, quote: Field, author: Field)

  /** The reply: `response.ok` and the parsed body. */
  datatype Response = Response(ok: bool, body: Body)

  /** The returned quote. The `quote` value is passed on as found (it may be
      missing or `null`); the author is always a string. */
  datatype Quote = Quote(quote: Field, author: string)

  /** The two errors `generateText` throws: "Failed to fetch quote" and
      "QuoteSlate returned no data". */
  datatype FetchError = RequestFailed | NoData

  const UnknownAuthor: string := "Unknown"

  /** The object `quoteData` is bound to, or `undefined`. */
  function SelectQuoteData(body: Body): (r: Option<QuoteObject>)
    // a `data` key decides alone
    ensures body.data.Some? ==>
              (r.Some? <==> body.data.value.Single? || (body.data.value.List? && |body.data.value.items| > 0))
    ensures body.data.Some? && body.data.value.Single? ==> r == Some(body.data.value.obj)
    ensures body.data.Some? && body.data.value.List? && |body.data.value.items| > 0 ==>
              r == Some(body.data.value.items[0])
    // otherwise both top-level keys must be present, whatever they hold
    ensures body.data.None? ==>
              (r.Some? <==> body.quote != Absent && body.author != Absent)
    ensures body.data.None? && r.Some? ==> r.value == QuoteObject(body.quote, body.author)
  {
    match body.data
    case Some(d) =>
      (match d
       case Single(obj) => Some(obj)
       case List(items) => if |items| > 0 then Some(items[0]) else None
       case NullData => None)
    case None =>
      if body.quote != Absent && body.author != Absent
      then Some(QuoteObject(body.quote, body.author))
      else None
  }

  /** `author ?? "Unknown"`. */
  function AuthorOrUnknown(f: Field): (a: string)
    ensures f.Str? ==> a == f.s
    ensures !f.Str? ==> a == UnknownAuthor
  {
    match f
    case Str(s) => s
    case _ => UnknownAuthor
  }

  /** `generateText` after the fetch: the quote, or the error it throws. */
  function Decode(resp: Response): (r: Result<Quote, FetchError>)
    ensures !resp.ok ==> r == Failure(RequestFailed)
    ensures resp.ok ==> (r.Failure? <==> SelectQuoteData(resp.body).None?)
    ensures resp.ok && r.Failure? ==> r.error == NoData
    ensures r.Success? ==>
              var obj := SelectQuoteData(resp.body).value;
              r.value.quote == obj.quote && r.value.author == AuthorOrUnknown(obj.author)
  {
    if !resp.ok then Failure(RequestFailed)
    else
      match SelectQuoteData(resp.body)
      case None => Failure(NoData)
      case Some(obj) => Success(Quote(obj.quote, AuthorOrUnknown(obj.author)))
  }

  /** A failed status is an error whatever the body says. */
  lemma NotOkIsError(b1: Body, b2: Body)
    ensures Decode(Response(false, b1)) == Decode(Response(false, b2)) == Failure(RequestFailed)
  {
  }

  /** With a `data` key, the top-level `quote` and `author` keys are ignored. */
  lemma DataTakesPrecedence(d: Data, q1: Field, a1: Field, q2: Field, a2: Field)
    ensures Decode(Response(true, Body(Some(d), q1, a1))) == Decode(Response(true, Body(Some(d), q2, a2)))
  {
  }

  /** An array stands for its first element; an empty array or `null` is "no data". */
  lemma ArrayYieldsFirst(items: seq<QuoteObject>, q: Field, a: Field)
    ensures |items| > 0 ==>
              Decode(Response(true, Body(Some(List(items)), q, a)))
              == Decode(Response(true, Body(Some(Single(items[0])), q, a)))
    ensures |items| == 0 ==> Decode(Response(true, Body(Some(List(items)), q, a))) == Failure(NoData)
    ensures Decode(Response(true, Body(Some(NullData), q, a))) == Failure(NoData)
  {
  }

  /** The direct shape is taken exactly when both keys are present; a present but
      `null` author becomes "Unknown". */
  lemma DirectShape(q: Field, a: Field)
    ensures Decode(Response(true, Body(None, q, a))).Success? <==> q != Absent && a != Absent
    ensures a == Null && q != Absent ==>
              Decode(Response(true, Body(None, q, a))) == Success(Quote(q, UnknownAuthor))
  {
  }

  /** The three shapes the service may use for one object. */
  function Wrap(obj: QuoteObject, shape: nat, rest: seq<QuoteObject>): Body
    requires shape < 3
  {
    if shape == 0 then Body(None, obj.quote, obj.author)
    else if shape == 1 then Body(Some(Single(obj)), Absent, Absent)
    else Body(Some(List([obj] + rest)), Absent, Absent)
  }

  /** Round trip: a quote with a string author, sent in any of the three shapes,
      comes back unchanged. */
  lemma {:induction false} RoundTrip(quote: Field, author: string, shape: nat, rest: seq<QuoteObject>)
    requires shape < 3 && quote != Absent
    ensures Decode(Response(true, Wrap(QuoteObject(quote, Str(author)), shape, rest))) == Success(Quote(quote, author))
  {
    var obj := QuoteObject(quote, Str(author));
    if shape == 2 {
      assert ([obj] + rest)[0] == obj;
    }
  }
}
