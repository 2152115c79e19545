/**
 * The quote service: one store object holding the sequence of quotes that
 * the request handlers read and change in place.  Each handler is a method
 * whose postcondition ties its reply and the new sequence to the handler's
 * meaning in module Quotes.
 */
module QuoteService {
  import opened Quotes

  class QuoteStore {
    /** The quotes in their current order; a quote's id is its index here. */
    var quotes: seq<Quote>

    /** The store as the service starts: the four seed quotes, in order. */
    constructor ()
      ensures quotes == Seed
    {
      quotes := Seed;
    }

    /** GET / — every quote, in the current order. */
    method List() returns (r: Reply<seq<Quote>>)
      ensures r.Ok? && r.value == quotes
    {
      r := Ok(quotes);
    }

    /** GET /quote/random, given the index k = floor(random * length) that the
        random draw produced; the store must hold at least one quote. */
    method PickAt(k: int) returns (r: Reply<Quote>)
      requires 0 <= k < |quotes|
      ensures r.Ok? && r.value in quotes
      ensures r == Lookup(quotes, k)
    {
      var q := quotes[k];
      r := Ok(q);
    }

    /** GET /quote/:id */
    method Get(id: int) returns (r: Reply<Quote>)
      ensures r == Lookup(quotes, id)
      ensures id < 0 || |quotes| <= id ==> r == NotFound && r.Status() == 404
    {
      if |quotes| <= id || id < 0 {
        return NotFound;
      }
      var q := quotes[id];
      r := Ok(q);
    }

    /** POST /quote: appends the new quote in place. */
    method Create(body: map<string, Json>) returns (r: Reply<bool>)
      modifies this
      ensures Outcome(r, quotes) == Post(old(quotes), body)
      ensures r == ServerError <==> "hasOwnProperty" in body
      ensures r == BadRequest <==> "hasOwnProperty" !in body && !HasQuoteFields(body)
      ensures !r.Ok? ==> quotes == old(quotes)
      ensures r == Ok(true) ==> quotes == old(quotes) + [Quote(body["author"], body["text"])]
    {
      if "hasOwnProperty" in body {
        // the call body.hasOwnProperty('author') throws before any check
        return ServerError;
      }
      if !("author" in body) || !("text" in body) {
        return BadRequest;
      }
      var newQuote := Quote(body["author"], body["text"]);
      quotes := quotes + [newQuote];
      r := Ok(true);
    }

    /** DELETE /quote/:id: splices one quote out in place. */
    method Delete(id: int) returns (r: Reply<bool>)
      modifies this
      ensures Outcome(r, quotes) == Remove(old(quotes), id)
      ensures r == NotFound <==> |old(quotes)| <= id
      ensures r == NotFound ==> quotes == old(quotes)
      ensures 0 <= id < |old(quotes)| ==>
        r == Ok(true) && quotes == old(quotes)[..id] + old(quotes)[id + 1..]
    {
      if |quotes| <= id {
        return NotFound;
      }
      ghost var before := quotes;
      quotes := SpliceOne(quotes, id);
      r := Ok(true);
      if 0 <= id {
        RemoveShifts(before, id, 0);
      }
    }
  }
}
