/**
 * The quote store of the quote service: its records, its replies, and the
 * meaning of each request handler as a function from the current sequence of
 * quotes to a reply and the next sequence.  The class in QuoteService updates
 * its state in place and is proved against these functions.
 */
module Quotes {

  /** A JSON value as the body parser delivers it.  A POST body is an object,
      so it is modelled as its map of own properties. */
  datatype Json =
    | JNull
    | JBool(b: bool)
    | JNumber(n: int)
    | JString(s: string)
    | JArray(items: seq<Json>)
    | JObject(fields: map<string, Json>)

  /** A quote record.  It has no identifier: a quote is addressed by its
      current position in the store.  Its fields hold whatever JSON values the
      creating request carried; only the seed quotes are known to be strings. */
  datatype Quote = Quote(author: Json, text: Json)

  /** What a handler answers: a JSON value on success, one of the two error
      kinds the handlers send themselves, each with a fixed plain-text
      message, or the framework's answer to an exception the handler threw. */
  datatype Reply<T> = Ok(value: T) | NotFound | BadRequest | ServerError {

    /** The HTTP status code the handler assigns. */
    function Status(): (code: int)
      ensures Ok? <==> code == 200
      ensures NotFound? <==> code == 404
      ensures BadRequest? <==> code == 400
      ensures ServerError? <==> code == 500
    {
      match this
      case Ok(_) => 200
      case NotFound => 404
      case BadRequest => 400
      case ServerError => 500
    }

    /** The plain-text body a handler sends with its own error status. */
    function ErrorText(): (t: string)
      requires NotFound? || BadRequest?
      ensures NotFound? ==> t == NotFoundText
      ensures BadRequest? ==> t == BadRequestText
    {
      if NotFound? then NotFoundText else BadRequestText
    }
  }

  const NotFoundText: string := "Error 404: No quote found"
  const BadRequestText: string := "Error 400: Post syntax incorrect."

  /** The reply of one handler together with the store it leaves behind. */
  datatype Outcome<T> = Outcome(reply: Reply<T>, store: seq<Quote>)

  /** The four quotes the store holds when the service starts, in order. */
  const Seed: seq<Quote> := [
    Quote(JString("Audrey Hepburn"),
          JString("Nothing is impossible, the word itself says 'I'm possible'!")),
    Quote(JString("Walt Disney"),
          JString("You may not realize it when it happens, but a kick in the teeth may be the best thing in the world for you")),
    Quote(JString("Unknown"),
          JString("Even the greatest was once a beginner. Don\U{2019}t be afraid to take that first step.")),
    Quote(JString("Neale Donald Walsch"),
          JString("You are afraid to die, and you\U{2019}re afraid to live. What a way to exist."))
  ]

  /** GET /quote/:id — the quote at position id, or NotFound when id is
      below 0 or not below the number of quotes. */
  function Lookup(s: seq<Quote>, id: int): (r: Reply<Quote>)
    ensures r.Ok? <==> 0 <= id < |s|
    ensures r.Ok? ==> r.value == s[id]
    ensures !r.Ok? ==> r == NotFound
  {
    if |s| <= id || id < 0 then NotFound else Ok(s[id])
  }

  /** The POST body has both required keys as own properties; their values
      are not inspected. */
  predicate HasQuoteFields(body: map<string, Json>): (ok: bool)
    ensures ok <==> {"author", "text"} <= body.Keys
  {
    "author" in body && "text" in body
  }

  /** POST /quote — append a quote built from the body's author and text, or
      answer BadRequest and keep the store when either key is missing.
      A body with an own property named "hasOwnProperty" hides the inherited
      method with a JSON value, which is never a function, so the key check
      itself throws a TypeError: the framework answers 500 and the handler
      never reaches the append. */
  function Post(s: seq<Quote>, body: map<string, Json>): (o: Outcome<bool>)
    ensures o.reply.Ok? <==> HasQuoteFields(body) && "hasOwnProperty" !in body
    ensures o.reply == ServerError <==> "hasOwnProperty" in body
    ensures o.reply == BadRequest <==> "hasOwnProperty" !in body && !HasQuoteFields(body)
    ensures !o.reply.Ok? ==> o.store == s
    ensures o.reply.Ok? ==>
      && o.reply.value
      && |o.store| == |s| + 1
      && o.store[..|s|] == s
      && o.store[|s|] == Quote(body["author"], body["text"])
  {
    if "hasOwnProperty" in body then
      Outcome(ServerError, s)
    else if !("author" in body) || !("text" in body) then
      Outcome(BadRequest, s)
    else
      Outcome(Ok(true), s + [Quote(body["author"], body["text"])])
  }

  /** The position at which Array.prototype.splice starts removing, given the
      array length and the requested start (ECMAScript 5.1, section 15.4.4.12,
      steps 5 and 6): a negative start counts back from the end, and the result
      is clamped to lie between 0 and the length. */
  function SpliceStart(len: nat, start: int): (k: nat)
    ensures k <= len
    ensures 0 <= start <= len ==> k == start
    ensures start < 0 && 0 <= len + start ==> k == len + start
    ensures len + start < 0 ==> k == 0
    ensures len < start ==> k == len
  {
    if start < 0 then
      (if len + start > 0 then len + start else 0)
    else
      (if start < len then start else len)
  }

  /** splice(start, 1): remove the element at SpliceStart(|s|, start) if
      there is one; every later element moves one position down. */
  function SpliceOne(s: seq<Quote>, start: int): (r: seq<Quote>)
    ensures SpliceStart(|s|, start) < |s| ==> |r| == |s| - 1
    ensures SpliceStart(|s|, start) == |s| ==> r == s
    ensures forall j :: 0 <= j < |r| ==>
      r[j] == if j < SpliceStart(|s|, start) then s[j] else s[j + 1]
  {
    var k := SpliceStart(|s|, start);
    // the number of elements removed: min(max(1, 0), len - k)
    var count := if k < |s| then 1 else 0;
    s[..k] + s[k + count..]
  }

  /** DELETE /quote/:id — only an id at or past the end is refused; any
      other id, negative ones included, is handed to splice. */
  function Remove(s: seq<Quote>, id: int): (o: Outcome<bool>)
    ensures o.reply.NotFound? <==> |s| <= id
    ensures !o.reply.NotFound? ==> o.reply == Ok(true) && o.store == SpliceOne(s, id)
    ensures o.reply.NotFound? ==> o.store == s
    ensures o.reply.Ok? && |s| > 0 ==> |o.store| == |s| - 1
  {
    if |s| <= id then Outcome(NotFound, s) else Outcome(Ok(true), SpliceOne(s, id))
  }

  // ---------------------------------------------------------------------------
  // Properties of the handlers
  // ---------------------------------------------------------------------------

  /** A created quote is found at the new last position, and every other
      position answers exactly as it did before the creation. */
  lemma PostThenLookup(s: seq<Quote>, body: map<string, Json>, j: int)
    requires HasQuoteFields(body) && "hasOwnProperty" !in body
    ensures Lookup(Post(s, body).store, |s|) == Ok(Quote(body["author"], body["text"]))
    ensures j != |s| ==> Lookup(Post(s, body).store, j) == Lookup(s, j)
  {
  }

  /** Deleting a position in range shifts every later quote down by one: for
      every id j, the new store answers at j what the old one answered at j,
      or at j + 1 from the deleted position on. */
  lemma RemoveShifts(s: seq<Quote>, id: int, j: int)
    requires 0 <= id < |s|
    ensures Remove(s, id).reply == Ok(true)
    ensures Remove(s, id).store == s[..id] + s[id + 1..]
    ensures Lookup(Remove(s, id).store, j) == if j < id then Lookup(s, j) else Lookup(s, j + 1)
  {
  }

  /** Delete has no lower-bound check: a negative id always succeeds, removes
      the quote |s| + id from the start (the first one when that is negative),
      and removes nothing from an empty store. */
  lemma RemoveNegative(s: seq<Quote>, id: int)
    requires id < 0
    ensures Remove(s, id).reply == Ok(true)
    ensures |s| == 0 ==> Remove(s, id).store == []
    ensures 0 <= |s| + id ==> Remove(s, id).store == s[..|s| + id] + s[|s| + id + 1..]
    ensures |s| + id < 0 && |s| > 0 ==> Remove(s, id).store == s[1..]
  {
  }

  /** Get and delete validate ids differently: a non-negative id is refused
      by both or by neither, while id -1 is NotFound for get but deletes the
      last quote of a non-empty store. */
  lemma GetDeleteAsymmetry(s: seq<Quote>, id: int)
    ensures 0 <= id ==> (Lookup(s, id).NotFound? <==> Remove(s, id).reply.NotFound?)
    ensures Lookup(s, -1) == NotFound
    ensures |s| > 0 ==> Remove(s, -1) == Outcome(Ok(true), s[..|s| - 1])
  {
  }

  /** A successful delete on a non-empty store removes exactly one quote: the
      one at the position splice starts from. */
  lemma RemoveTakesOne(s: seq<Quote>, id: int)
    requires |s| > 0 && id < |s|
    ensures SpliceStart(|s|, id) < |s|
    ensures multiset(Remove(s, id).store) + multiset{s[SpliceStart(|s|, id)]} == multiset(s)
  {
    var k := SpliceStart(|s|, id);
    var t := Remove(s, id).store;
    assert t == s[..k] + s[k + 1..] by {
      forall i | 0 <= i < |t| ensures t[i] == (s[..k] + s[k + 1..])[i] { }
    }
    assert s == s[..k] + [s[k]] + s[k + 1..];
  }

  /** Deleting id -1 right after a successful create undoes it. */
  lemma PostThenRemoveLast(s: seq<Quote>, body: map<string, Json>)
    requires HasQuoteFields(body) && "hasOwnProperty" !in body
    ensures Remove(Post(s, body).store, -1) == Outcome(Ok(true), s)
  {
  }
}
