# Cricket match viewer, modelled in Dafny

A browser-side viewer fetches cricket match lists and match details from a
JSON API and renders them into three page regions: `#crntmatches`,
`#matches` and `#match-details`. API responses come in inconsistent shapes,
so the viewer normalises them and resolves every displayed field through a
JavaScript `a || b || ... || default` chain. This project models that
resolution logic and the page state it drives, and proves properties of both.

- `js_value.dfy` (module `Js`): parsed JSON values, JavaScript truthiness
  (`null`, `false`, `0` and `""` are falsy; every array and object is
  truthy), property reads (`None` is `undefined`), and the `||` chain `Or`,
  characterised by "first truthy candidate, else the final operand".
- `js_text.dfy` (module `JsText`): what a template literal `${v}` writes for
  a value. Integers print as decimal numerals. Arrays are comma-joined, with
  `null` elements writing nothing. Objects print as "[object Object]". An
  absent property prints as "undefined".
- `normalise.dfy` (module `Normalise`): `getArray`.
- `cards.dfy` (module `Cards`): one card per match record. It holds the
  values bound to title, team1, team2, status, score and id, and the
  `data-id` text the card's button carries.
- `details.dfy` (module `Details`): the detail view. It unwraps
  `match`/`data`, resolves title, status and toss, and renders scores as
  innings blocks, a dump, or plain text. `JSON.stringify` is kept opaque as
  `Dump`/`Pretty` of the value.
- `page.dfy` (module `Page`): the imperative part.
  - `Container` holds `children` and the `hidden` flag.
  - `ShowMessage` and `RenderMatches` (a loop that appends one card per record).
  - `Page` holds the three containers, plus logs of the requests issued,
    the alerts raised and the console errors.
  - Each async fetch is split at its first `await`. `Start...` is the part
    that runs at once; `Finish...` takes the response.
  - `Click` is the delegated click handler.

A property read on `null` throws in JavaScript. The model shows this as an
explicit outcome: `DetailOf` returns `None`, and `RenderMatches` returns
`ok == false` after appending the cards of the records before the `null`
one. The caller then takes its `catch` path.

Two behaviours of the code as written are worth knowing; both are proved.
- In the detail title (script.js:93), the team template always contains
  " vs ", so it is always truthy. The final `'Match details'` can never be
  chosen: a record with no name, title or teams is titled
  "undefined vs undefined" (`Details.TitleOfBareRecord`).
- The id guard at script.js:128 tests the `data-id` text, not the resolved
  value. A truthy array id such as `[]` therefore writes an empty attribute,
  and its button alerts instead of fetching (`Cards.DataIdEmptyIff`).

## Model

| member | source | states |
|---|---|---|
| `Js.Or` | script.js:55-59 | The chain yields the first truthy candidate in order, or the final operand when none is truthy; it is truthy whenever the final operand is |
| `Js.OrTruthyTail` | script.js:93 | A default written after an always-truthy operand is never reached: the chain equals the chain that ends at that operand |
| `JsText.NatText` | script.js:69 | A number prints as a non-empty string of decimal digits without a leading zero |
| `JsText.IntText` | script.js:69 | An integer prints as a numeral: a minus sign exactly for negative numbers, then decimal digits |
| `JsText.NatTextRoundTrip` | script.js:69 | Reading the printed digits back gives the number |
| `JsText.IntTextRoundTrip` | script.js:69 | A printed integer (with sign) parses back to itself, so distinct numeric ids give distinct `data-id` texts |
| `JsText.Text` | script.js:69 | `${v}` of a number is a numeral that parses back to the number; a string writes itself; an object writes "[object Object]"; every truthy value other than an array writes non-empty text |
| `JsText.TextEmptyIff` | script.js:127-128 | A value prints as the empty text exactly when it is `""`, `[]`, or a one-element array whose element prints nothing |
| `Normalise.GetArray` | script.js:2-8 | A falsy value gives `[]`; a top-level array is returned unchanged, even when empty; otherwise the `data` array wins, then the `matches` array, else `[]`; a non-empty result always comes from one of those three places |
| `Normalise.GetArrayShapes` | script.js:2-8 | `null`, `[...]`, `{data:[...]}`, `{matches:[...]}`, both keys, and a non-array `data` next to `matches` give the expected sequences |
| `Cards.Team` | script.js:55-56 | Each team is the first truthy of its three keys, else 'Team 1'/'Team 2', and is always truthy |
| `Cards.Status` | script.js:58 | The status is `status` if truthy, else 'Live' when `matchStarted` is truthy, else 'Scheduled'; it is never falsy, so the trailing `''` is dead |
| `Cards.Id` | script.js:59 | The card id is truthy or the `''` default |
| `Cards.Score` | script.js:60 | The card score is truthy or `''`, and a non-empty string score is the record's own `score` |
| `Cards.ScoreIsScoreOrEmpty` | script.js:60 | Both branches of the score conditional reduce to `m.score` if truthy, else `''` |
| `Cards.CardOf` | script.js:55-60 | Team 1, team 2, title and status of every card are truthy; the id is truthy or the `''` default |
| `Cards.Title` | script.js:57 | The card title is always truthy, so it is never empty as a value |
| `Cards.TeamFallbacks` | script.js:55-56 | Each team is `team-N` if truthy, else `teamN`, else `teamA`/`teamB`, else 'Team 1'/'Team 2' |
| `Cards.TitleFallbacks` | script.js:57 | The title is `name` if truthy, else `title`, else "team1 vs team2" built from the resolved teams |
| `Cards.IdFallbacks` | script.js:59 | The id is the first truthy of `id`, `unique_id`, `match_id`, else `''` |
| `Cards.TitleFallback` | script.js:57 | A record `{team1: a, team2: b}` (non-empty strings) gets the title "a vs b"; so `{team1:"A", team2:"B"}` is titled "A vs B" |
| `Cards.DataIdEmptyIff` | script.js:59-69 | A record with no truthy `id`, `unique_id` or `match_id` writes an empty `data-id`; the attribute is empty exactly for the `''` default or an array id that prints nothing |
| `Details.Unwrap` | script.js:92 | The unwrapped record is `match` if truthy, else `data` if truthy, else the body itself, and it is never `null` |
| `Details.TeamsTemplate` | script.js:93 | The team template is team 1's text ("undefined" when absent), then " vs ", then team 2's text; it is never empty, so it is truthy |
| `Details.Title` | script.js:93 | The detail title is always truthy |
| `Details.TitleDefaultUnreachable` | script.js:93 | The detail title is always truthy and is name, else title, else the teams template; 'Match details' is unreachable |
| `Details.TitleOfBareRecord` | script.js:93 | A record with no name, title or teams is titled "undefined vs undefined" |
| `Details.Toss` | script.js:95 | The toss is truthy or the `''` default |
| `Details.TossFallbacks` | script.js:95 | The toss is `toss` if truthy, else `toss_winner`, else `''` |
| `Details.ScoresValue` | script.js:96 | The scores value is always truthy; with none of score, scores or innings it is the empty array |
| `Details.ScoresFallbacks` | script.js:96 | The scores value is `score` if truthy, else `scores`, else `innings` |
| `Details.InningOf` | script.js:101-102 | An innings title is truthy or `''`; its score is a truthy `score`/`runs` value, and only when neither is truthy is it the dump of the whole innings record |
| `Details.InningFallbacks` | script.js:101-102 | An innings heading is `title`, else `inning`, else `''`; its score is `score`, else `runs`, else the dump of the innings record |
| `Details.InningsOf` | script.js:100-104 | The map succeeds exactly when no element is `null`, and then gives one block per element, in order |
| `Details.ScoresView` | script.js:98-109 | An array gives innings blocks, one per element in order (failing on a `null` element); another object gives a dump; any other value gives plain text |
| `Details.DetailOf` | script.js:91-121 | Rendering throws exactly for a `null` body or a `null` innings element; otherwise title, status and toss are those resolved from the unwrapped record, the scores section is the classification of its scores value, title and status are truthy, and the raw section holds the unwrapped record; with no scores there are no innings blocks |
| `Details.UnwrapShapes` | script.js:92-93 | `{match:{name:"X"}}`, `{data:{name:"X"}}` and `{name:"X"}` all unwrap to a record titled "X" |
| `Page.CardNodes` | script.js:54-72 | The cards for a run of records: exactly one per record, in input order, with no deduplication |
| `Page.CardNodesStep` | script.js:71 | Appending one record's card extends the cards of the records before it |
| `Page.ListOutcome` | script.js:22-29 | After a list fetch, the container holds one error message exactly when the fetch or parse failed or a record was `null`; one empty message exactly when `getArray` gave `[]`; otherwise one card per record, in order |
| `Page.DetailOutcome` | script.js:83-88 | After a detail fetch, the container holds exactly one node: the error line exactly when the fetch failed or rendering threw, otherwise the node is exactly the detail view `DetailOf` builds from the body |
| `Page.ClickActionOf` | script.js:125-135 | A details button with a missing or empty id alerts and fetches nothing; with an id it fetches exactly that id; the close control hides, unless the handler already returned at the alert |
| `Page.CardButtonClick` | script.js:126-129 | A card's button fetches exactly when its `data-id` is non-empty; a record with no truthy id field only alerts; a truthy string, number or object id always fetches its text |
| `Page.ShowMessage` | script.js:10-14 | A missing container is left alone; otherwise the content becomes one paragraph of the given class ('info' when empty), and `hidden` is unchanged |
| `Page.RenderMatches` | script.js:49-73 | A missing container is a no-op; otherwise the content is cleared, then one card per record is appended in input order with no deduplication; a `null` record stops the loop with the earlier cards in place |
| `Page.Page.StartListFetch` | script.js:17-21 | The list container shows a single `loading` message, and exactly one list request is issued |
| `Page.Page.FinishListFetch` | script.js:22-29 | The container ends as `ListOutcome` says; exactly one console error on failure; nothing propagates |
| `Page.Page.FetchList` | script.js:33-46 | A whole list fetch issues one request, raises no alert, leaves the container as `ListOutcome` says, and logs one console error exactly on the catch path |
| `Page.Page.StartMatchDetails` | script.js:76-82 | Without a details container nothing happens, not even the request; otherwise the container is un-hidden, shows the loading line, and one request for the id is issued |
| `Page.Page.FinishMatchDetails` | script.js:83-88 | The details container ends as `DetailOutcome` says, keeps its `hidden` flag, and logs one console error exactly in the error case |
| `Page.Page.Click` | script.js:125-135 | A missing or empty id gives one alert and no request; an id gives exactly one detail request and an un-hidden container; close sets `hidden` and leaves the content untouched |
| `Page.Page.Ready` | script.js:144-145 | Page load starts exactly one current-matches fetch, shows its loading message, keeps `hidden`, raises no alert, logs no error, and leaves the other two (distinct) containers untouched |

## Left out

- The network, `response.json()`, the endpoint URLs and the API key (script.js:21, 37, 82). A fetch is an abstract `Response`: `Failure` (rejected or not JSON) or `Success(body)`. The requests are only logged as `CurrentMatches`, `AllMatches` and `MatchInfo(id)`.
- Overlapping fetches. The model does not capture that the last fetch to finish overwrites a container. `Finish...` methods take any response, so they do not tie a response to its request. This interleaving belongs to the browser's event loop.
- HTML text. Containers hold structured nodes, not markup. The missing HTML escaping of interpolated values is not modelled. The model assumes an id's text reads back unchanged from `data-id`; ids containing `"` or `&` would break this.
- `JSON.stringify` formatting. It is kept as the opaque `Dump`/`Pretty` of the value.
- Non-integer numbers. JSON numbers are modelled as integers, so fractions, integers beyond 2^53, and exponent notation from 1e21 up are not modelled.
- JSON objects with a key named `toString`. Interpolating one throws in JavaScript, because that own `toString` is not a function; the model prints "[object Object]".
- `alert` and `console.error` appear only as entries in `alerts` and a count in `errorsLogged`.
- Button wiring on `DOMContentLoaded` (script.js:139-142). It only registers the listeners of the two list buttons; `StartListFetch` and `FetchList` stand for a click on either. The delegated click listener, registered at the top level (script.js:124), is modelled by `Click`.
- Details.Unwrap: a string response body is treated as having no `match` property. In JavaScript, a string inherits `String.prototype.match`, a function. So `data.match` is truthy, and script.js:92 unwraps it to that function. The title is then its `name`, "match", and the raw section prints "undefined". The model keeps the string itself, which gets the title "undefined vs undefined" and shows the string in the raw section. Functions are not JSON values, and this is the only inherited property the viewer reads.
- A close click on a page without `#match-details` throws an uncaught TypeError (script.js:133). The model leaves the page unchanged in that case.
