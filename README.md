# Quote store

A model of the in-memory quote store of a small Express service (`quote.js`).
The service keeps one array of quote records, `{author, text}`, seeded with four
quotes, and five route handlers read it or change it in place:

- `GET /` lists every quote;
- `GET /quote/random` answers the quote at a random position;
- `GET /quote/:id` answers the quote at position `id`, or 404;
- `POST /quote` appends a quote built from the body's `author` and `text`, or 400;
- `DELETE /quote/:id` splices out the quote at position `id`, or 404.

A quote has no identifier of its own: its "id" is its current index, so a
delete shifts every later quote down by one position.

The project has two modules:

- `quotes.dfy`, module `Quotes`: the records (`Quote`, with `Json` field
  values), the replies (`Reply`: `Ok`, `NotFound`, `BadRequest`, `ServerError`), the seed
  quotes, and the meaning of each handler as a function from the current
  sequence to a reply and the next sequence (`Lookup`, `Post`, `Remove`, with
  `SpliceStart`/`SpliceOne` for `Array.prototype.splice`). The lemmas about
  these functions state what the design promises across requests.
- `quote_service.dfy`, module `QuoteService`: class `QuoteStore`, whose field
  `quotes: seq<Quote>` is the shared array. `Create` and `Delete` change it in
  place (`modifies this`) and their postconditions equate the reply and the new
  sequence with `Post`/`Remove` of the old one; `List`, `Get` and `PickAt`
  change nothing.

Modelling decisions:

- The path parameter `id` is taken as an integer; the string-to-number
  coercion of the comparisons is not modelled.
- The POST body is its map of own properties, `map<string, Json>`;
  `hasOwnProperty` is key membership. The values are copied into the new quote
  unchecked, so a quote's fields are JSON values, not necessarily strings.
  A body with its own `hasOwnProperty` key hides the inherited method with a
  JSON value, so the call at quote.js:55 throws a `TypeError`; the framework
  answers 500 and the store is unchanged. The model gives this case its own
  reply, `ServerError`.
- Delete checks only the upper bound (quote.js:75). A negative id reaches
  `splice`, which under ECMAScript 5.1, section 15.4.4.12, starts at
  `max(length + id, 0)`: `DELETE /quote/-1` removes the last quote and answers
  `true`, and on an empty store it removes nothing and still answers `true`.
  Get checks both bounds, so the two handlers disagree on negative ids; the
  model keeps that asymmetry (`GetDeleteAsymmetry`).
- The random pick takes the already drawn index `k = floor(random * length)`
  as a parameter and requires `0 <= k < length`.

## Model

| member | source | states |
|---|---|---|
| `QuoteService.QuoteStore.constructor` | quote.js:5-10 | the store starts with exactly the four seed quotes, in order |
| `QuoteService.QuoteStore.List` | quote.js:16-19 | answers Ok with the whole current sequence, in order, and changes nothing |
| `QuoteService.QuoteStore.PickAt` | quote.js:22-29 | for a drawn index in range, answers Ok with a quote that is a member of the current sequence (the one at that index) and changes nothing |
| `QuoteService.QuoteStore.Get` | quote.js:39-49 | answers `Lookup` of the current sequence: the quote at a position in range, NotFound (status 404) below 0 or at/after the end; changes nothing |
| `QuoteService.QuoteStore.Create` | quote.js:52-71 | ServerError exactly when the body has its own `hasOwnProperty` key, BadRequest exactly when otherwise `author` or `text` is missing, both with the store unchanged; otherwise Ok(true) and the store is the old one plus one quote of exactly the body's author and text at the end |
| `QuoteService.QuoteStore.Delete` | quote.js:74-85 | NotFound exactly when id is at or past the end, store unchanged; otherwise Ok(true) and the store is the old one spliced at id; for an id in range, the old store with that one position cut out |
| `Quotes.Reply.Status` | quote.js:42-43 | Ok answers 200, NotFound 404, BadRequest 400, an exception thrown in a handler 500, and each code belongs to one kind only |
| `Quotes.Reply.ErrorText` | quote.js:43-57 | NotFound is sent with "Error 404: No quote found", BadRequest with "Error 400: Post syntax incorrect." (also quote.js:77) |
| `Quotes.HasQuoteFields` | quote.js:55 | the body passes the key check exactly when both `author` and `text` are among its own keys, whatever their values |
| `Quotes.Lookup` | quote.js:41-48 | Ok exactly for `0 <= id < length`, then with the quote at `id`; otherwise NotFound |
| `Quotes.Post` | quote.js:55-67 | ServerError with the store unchanged exactly when the body has its own `hasOwnProperty` key (the key check throws); otherwise Ok exactly when both keys are present; then the length grows by one, the earlier quotes are kept and the last is built from the body's author and text only; otherwise BadRequest with the store unchanged |
| `Quotes.SpliceStart` | quote.js:81 | splice's start position: within `[0, length]`, the id itself when in range, counted back from the end when negative, clamped to 0 or the length |
| `Quotes.SpliceOne` | quote.js:81 | `splice(id, 1)`: one element fewer when the start is inside the array, the same array when it is at the end; earlier elements stay, later ones move down one position |
| `Quotes.Remove` | quote.js:75-84 | NotFound exactly when `length <= id`, store unchanged; otherwise Ok(true) with the spliced store, which on a non-empty store is one quote shorter |
| `Quotes.PostThenLookup` | quote.js:61-67 | after a successful create, get at the old length answers the new quote, and get at every other id answers as before |
| `Quotes.RemoveShifts` | quote.js:75-81 | deleting a position in range cuts out exactly that quote; afterwards get at `j` answers what get at `j` answered before for `j < id`, and what get at `j + 1` answered for `j >= id` |
| `Quotes.RemoveNegative` | quote.js:75-81 | a negative id always answers Ok(true); it removes the quote at `length + id`, the first quote when that is negative, and nothing from an empty store |
| `Quotes.GetDeleteAsymmetry` | quote.js:41-81 | for non-negative ids get and delete refuse the same ids; id -1 is NotFound for get but deletes the last quote of a non-empty store |
| `Quotes.RemoveTakesOne` | quote.js:81 | a successful delete on a non-empty store removes exactly one occurrence of one quote: the new store plus the removed quote is the old store as a multiset |
| `Quotes.PostThenRemoveLast` | quote.js:67-81 | deleting id -1 right after a successful create answers Ok(true) and restores the store as it was before the create |

## Left out

- Express wiring, the body parser, JSON serialisation of replies and the
  sending of responses (quote.js:1-2, 13, 18, 28, 43, 48, 57, 70, 77, 84):
  replies are the `Reply` datatype; the status codes are `Reply.Status` and the
  two error texts are `Reply.ErrorText`.
- `app.listen` and the port lookup (quote.js:87): process and network plumbing.
- `Math.random()` and `Math.floor` over floating point (quote.js:24): the drawn
  index is a parameter of `PickAt`.
- `QuoteService.QuoteStore.PickAt`: requires a non-empty store; on an empty
  store the source reads `quotes[0]`, which is `undefined`, and that case is not
  modelled.
- The loose comparison and indexing of the string path parameter
  (`"foo"` compares false both ways, `quotes["1.5"]` is `undefined`): ids are
  integers in the model. Its one visible effect on the store is therefore not
  modelled: `DELETE /quote/foo` passes the bound check at quote.js:75 (every
  comparison with NaN is false) and `splice` converts the id to 0, so it
  removes the first quote; `DELETE /quote/1.5` likewise removes quote 1.
- JSON numbers are integers in the model; fractional and exponent forms of
  body values, and the rounding of large integers to doubles, are not
  represented. No handler inspects a body value, so no contract depends on it.
- The body of the 500 answer to a thrown exception is the framework's and is
  not modelled; only its status and the unchanged store are.
- Concurrency: the handlers run one at a time, each to completion.
