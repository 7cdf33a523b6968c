# Game review site: verified model of its client-side logic

This project models, in Dafny, the four pieces of the site's own logic:

- **The `StarRating` widget** (`components/star-rating.tsx`). It is a class with a committed rating (`currentRating`) and a transient hover preview (`hoverRating`). Clicks, hovers and leaves update them. A click saves the star under `rating-<gameId>` in browser storage and calls the parent back. The widget has two mount effects: it loads the saved rating, then syncs to the `initialRating` prop.
- **The feedback page** (`app/feedback/page.tsx`). It is a class holding the list of submitted entries and the form fields `nome`, `mensagem` and `rating`. It embeds a `StarRating` widget. It loads the list from storage under `feedbacks` on mount and writes it back after every change. `handleSubmit` validates the form, appends one trimmed entry and clears the form. `renderStars` is a pure string builder.
- **The search page** (`app/pesquisa/page.tsx`). It is a class with `searchTerm`, `games`, `loading` and `error`. It models the query-length gate, the state changes `fetchGames` makes around an awaited request, and the priority order of the four render branches.
- **The contact page** (`app/contato/page.tsx`). It is a three-field form record. A change event writes one field by name. Submit hands the record over and clears it.

Browser storage is one shared class, `BrowserStorage.Storage`, over a `map<string, string>`. The JavaScript built-ins the pages depend on are modelled as functions in `JsString` and `JsNumber`: `trim`, `repeat`, `parseInt` and `toString`. `JSON.stringify`/`JSON.parse` are replaced by a length-prefixed text codec, `FeedbackCodec`, whose round trip is proved.

Two behaviours of the widget are easy to misread, and the model has them as the code does:

- **Fill rule.** A star is lit iff `(hoverRating || currentRating) >= value`. A non-zero hover therefore *replaces* the committed value; it is not the maximum of the two. `HoverOverridesCommitted` and `HoverBelowCommittedShowsFewer` prove the consequence.
- **Mount order.** The storage load runs first and the `initialRating` sync runs after it. So after mount the committed rating is always `initialRating`, whatever was saved (`StarRating.Mount`, `ClickThenReload`).

## Model

| member | source | states |
|---|---|---|
| StarRatingWidget.StarRating.constructor | components/star-rating.tsx:11-13 | The committed rating starts at `initialRating` and the hover at 0. |
| StarRatingWidget.StarRating.LoadStoredRating | components/star-rating.tsx:15-22 | The committed rating becomes the `parseInt` of the saved string only when a non-empty `gameId` is given and a non-empty string is stored under its key. Otherwise it is unchanged. |
| StarRatingWidget.LoadedRating | components/star-rating.tsx:16-19 | Both directions of "a value is loaded iff there is a truthy `gameId` and a truthy stored string", and the value is `parseInt` of that string. |
| StarRatingWidget.StarRating.SyncInitialRating | components/star-rating.tsx:24-26 | The committed rating becomes `initialRating`. |
| StarRatingWidget.StarRating.Mount | components/star-rating.tsx:15-26 | Both effects run in declaration order, so after mount the committed rating is `initialRating`. |
| StarRatingWidget.StarRating.ReceiveInitialRating | components/star-rating.tsx:24-26 | A re-render resets the committed rating to `initialRating` exactly when the prop changed. |
| StarRatingWidget.StarRating.ReceiveGameId | components/star-rating.tsx:15-22 | A changed `gameId` re-runs the load for the new id. An unchanged one leaves the committed rating alone. |
| StarRatingWidget.StarRating.Click | components/star-rating.tsx:28-41 | Commits star `v` and clears the hover. With a `gameId`, it writes `v.toString()` under `rating-<gameId>` and touches no other key. Without one, storage is unchanged. The callback is called exactly once, with `v`, iff one was supplied. |
| StarRatingWidget.StarRating.MouseEnter | components/star-rating.tsx:51 | The hover becomes the entered star. The committed rating is untouched. |
| StarRatingWidget.StarRating.MouseLeave | components/star-rating.tsx:52 | The hover drops to 0, and every star is lit iff the committed rating alone lights it. |
| StarRatingWidget.FillPattern | components/star-rating.tsx:45-49 | Five entries, the i-th being the fill of star i+1 under the fill rule. |
| StarRatingWidget.HoverOverridesCommitted | components/star-rating.tsx:49 | With a non-zero hover, a star is lit iff the hover reaches it, whatever is committed. |
| StarRatingWidget.HoverBelowCommittedShowsFewer | components/star-rating.tsx:49 | Hovering below the committed star darkens that star, so the display differs from the committed one. |
| StarRatingWidget.LitStarsArePrefix | components/star-rating.tsx:49 | If a star is lit, every lower star is lit. |
| StarRatingWidget.NoHoverShowsCommitted | components/star-rating.tsx:49 | With no hover, a star is lit iff the committed value is a number at least its position. |
| StarRatingWidget.Displayed | components/star-rating.tsx:49 | The value the stars show: the hover when it is non-zero, else the committed value (JavaScript `or` on numbers). Its consequences are the four fill lemmas below. |
| StarRatingWidget.Filled | components/star-rating.tsx:49 | The fill rule: a star is lit iff the displayed value is a number at least its position. |
| StarRatingWidget.SavedRatingLoadsBack | components/star-rating.tsx:17-33 | Loading the key a click just wrote gives back exactly the clicked star. |
| StarRatingWidget.SavingIsPerGame | components/star-rating.tsx:17-33 | Saving one game's rating leaves every other game's load unchanged. |
| StarRatingWidget.HoverThenLeave | components/star-rating.tsx:11-52 | `initialRating` 3, hover star 5, then leave: three stars lit and the committed rating still 3. |
| StarRatingWidget.ClickThenReload | components/star-rating.tsx:15-33 | A clicked star is saved and loaded back by a fresh widget for the same game. The same mount's sync then replaces it with `initialRating`. |
| BrowserStorage.Storage.GetItem | components/star-rating.tsx:17 | `null` (`None`) iff the key is absent; otherwise the stored string. |
| BrowserStorage.Storage.SetItem | components/star-rating.tsx:33 | Overwrites one key; every other key reads as before. |
| BrowserStorage.RatingKey | components/star-rating.tsx:17-33 | The key `rating-<gameId>`. `RatingKeyInjective` and `RatingKeyIsNotFeedbacksKey` prove that it separates games and never clashes with `feedbacks`. |
| BrowserStorage.RatingKeyInjective | components/star-rating.tsx:17-33 | Two games share a rating key iff their ids are equal. |
| BrowserStorage.RatingKeyIsNotFeedbacksKey | app/feedback/page.tsx:21-28 | No rating key collides with the feedback list's key. |
| JsNumber.ParseInt | components/star-rating.tsx:19 | `parseInt`: skips leading whitespace, takes one optional sign, then reads the leading decimal digits; `None` is `NaN`. Its properties are the three lemmas below. |
| JsNumber.ParseIntNaNIffNoDigits | components/star-rating.tsx:19 | `parseInt` gives `NaN` iff no digit follows the leading whitespace and optional sign, in both directions. |
| JsNumber.ParseIntReadsLeadingDigits | components/star-rating.tsx:19 | A digit run followed by a non-digit (as in "3.5") parses to the run's value; the rest is ignored. |
| JsNumber.IntToString | components/star-rating.tsx:33 | `value.toString()`: at least one character, starting with a digit or a minus sign. `ParseIntToString` proves that it reads back. |
| JsNumber.ParseIntToString | components/star-rating.tsx:19-33 | `parseInt(n.toString())` is `n` for every integer the model represents. In JavaScript this holds for integers of magnitude at most 2^53; the widget writes only 1..5. |
| JsNumber.DigitPrefixSpec | components/star-rating.tsx:19 | `parseInt` reads the longest run of leading digits. |
| JsNumber.ValueOfNatToString | components/star-rating.tsx:33 | The decimal digits written for a number read back as that number. |
| JsString.TrimStartSpec | app/feedback/page.tsx:38-45 | `trimStart` removes exactly a blank prefix and stops at the first non-whitespace character. |
| JsString.TrimEndSpec | app/feedback/page.tsx:38-45 | `trimEnd` removes exactly a blank suffix and stops at the last non-whitespace character. |
| JsString.Trim | app/feedback/page.tsx:38-45 | `trim` is `trimEnd` after `trimStart`. The lemmas below prove that it is a slice with whitespace only around it, has no outer whitespace, is empty iff the input is blank, and is idempotent. |
| JsString.TrimIsSlice | app/feedback/page.tsx:44-45 | `trim` yields a contiguous slice, with only whitespace before and after it. |
| JsString.TrimHasNoOuterWhitespace | app/feedback/page.tsx:44-45 | A trimmed string neither starts nor ends with whitespace. |
| JsString.TrimEmptyIffBlank | app/feedback/page.tsx:38 | `!s.trim()` holds iff `s` is all whitespace, in both directions. |
| JsString.TrimIdempotent | app/feedback/page.tsx:44-45 | Trimming twice is trimming once. |
| JsString.Repeat | app/feedback/page.tsx:59-60 | `c.repeat(n)` has length `n` and every character is `c`. |
| FeedbackCodec.Serialize | app/feedback/page.tsx:28 | `JSON.stringify(feedbacks)`, in the length-prefixed format. `DeserializeSerialize` and `SerializeInjective` are its contract. |
| FeedbackCodec.Deserialize | app/feedback/page.tsx:23 | `JSON.parse`, with `None` where the parse throws. `DeserializeSerialize` proves that it inverts `Serialize`. |
| FeedbackCodec.DeserializeSerialize | app/feedback/page.tsx:23-28 | Parsing the serialized list gives back the same list, entry for entry. |
| FeedbackCodec.SerializeInjective | app/feedback/page.tsx:28 | Different lists never serialize to the same text. |
| FeedbackCodec.ReadEntriesOf | app/feedback/page.tsx:23-28 | Reading `n` entries from the serialization of `n` entries followed by anything yields those entries and leaves the rest. |
| FeedbackCodec.ReadFieldsOf | app/feedback/page.tsx:7-12 | Reading the fields of an entry from their serialization yields those fields and leaves the rest. |
| FeedbackCodec.ReadFeedbackOf | app/feedback/page.tsx:7-12 | One serialized entry, rating included, reads back as that entry. |
| FeedbackPage.NewFeedback | app/feedback/page.tsx:38-48 | Rejected iff the name is blank or the rating is 0. Otherwise the entry holds the trimmed name (non-empty), the trimmed message, the rating and the timestamp. |
| FeedbackPage.NewFeedbackIsOk | app/feedback/page.tsx:38-48 | A non-blank name and a star from 1 to 5 give an accepted, trimmed, well-formed entry. |
| FeedbackPage.LoadFeedbacks | app/feedback/page.tsx:20-25 | Nothing is loaded iff the key is missing or holds the empty string. A parse error occurs iff a non-empty stored text does not parse. A loaded list is the parse of the stored text. |
| FeedbackPage.SavedListLoadsBack | app/feedback/page.tsx:20-29 | A list the page saved is exactly the list a later mount loads. |
| FeedbackPage.RenderStars | app/feedback/page.tsx:58-62 | Defined iff 0 ≤ count ≤ 5 (`repeat` throws otherwise). Then it has length 5, with `count` ★ followed by ☆. |
| FeedbackPage.FeedbackPage.constructor | app/feedback/page.tsx:15-18 | Empty list and form, rating 0, and the widget rendered with `initialRating` 0, hover 0, a callback and no `gameId`. |
| FeedbackPage.FeedbackPage.Persist | app/feedback/page.tsx:27-29 | The `feedbacks` key holds the serialization of the current list; nothing else changes. |
| FeedbackPage.FeedbackPage.LoadEffect | app/feedback/page.tsx:20-25 | The list becomes the parse of the stored text when there is one. `threw` iff the parse fails. |
| FeedbackPage.FeedbackPage.Mount | app/feedback/page.tsx:20-29 | After the widget's effects, the load and the persist effect, the list is the stored one (or empty). Storage then differs from before only at `feedbacks`, which holds the list's serialization. The form and the widget's hover are untouched. If the parse throws, storage is unchanged. |
| FeedbackPage.FeedbackPage.SetNome | app/feedback/page.tsx:16 | The name field holds the input's value. |
| FeedbackPage.FeedbackPage.SetMensagem | app/feedback/page.tsx:17 | The message field holds the input's value. |
| FeedbackPage.FeedbackPage.HandleRatingChange | app/feedback/page.tsx:31-33 | The form's rating becomes the star the widget reported. |
| FeedbackPage.FeedbackPage.ClickStar | app/feedback/page.tsx:31-33 | A click on the form's widget sets the form's rating to that star, keeps the page invariant and leaves storage unchanged (no `gameId`). |
| FeedbackPage.FeedbackPage.HandleSubmit | app/feedback/page.tsx:35-56 | Accepted iff the name is not blank and the rating is not 0. A rejection changes nothing: list, form, storage and widget. An acceptance grows the list by one, keeps the prior entries in order, puts the trimmed entry last (rating 1..5), clears the form and persists the new list. |
| FeedbackPage.SubmitScenario | app/feedback/page.tsx:20-56 | Name "Ana", star 4 and an empty message on an empty store: the list is that one entry, it is saved, and the form is cleared. |
| SearchPage.ShouldFetch | app/pesquisa/page.tsx:52 | The gate on `searchTerm.length`, counted in UTF-16 units as JavaScript does: length 0 or greater than 1. |
| SearchPage.ShouldFetchExactlyUnlessOneChar | app/pesquisa/page.tsx:52 | The only query not sent is a single character from the Basic Multilingual Plane, in both directions. |
| SearchPage.SingleEmojiIsSent | app/pesquisa/page.tsx:52 | A one-emoji query is one character but two units long, so it is sent. |
| JsString.Utf16Length | app/pesquisa/page.tsx:52 | `s.length`: between the number of characters and twice that. `Utf16LengthIsOne` proves that length 1 means one character below U+10000. |
| JsString.Utf16LengthIsOne | app/pesquisa/page.tsx:52 | Length 1 in UTF-16 units iff exactly one character, at most U+FFFF. |
| SearchPage.Results | app/pesquisa/page.tsx:32-39 | Results exist iff the response is OK and its body parsed, and they are the body's list. |
| SearchPage.SelectView | app/pesquisa/page.tsx:79-104 | Exactly one branch is chosen, with priority loading > truthy error > empty list > game cards. |
| SearchPage.FirstRender | app/pesquisa/page.tsx:21-24 | A newly constructed page renders the loading notice. |
| SearchPage.SearchPageState.constructor | app/pesquisa/page.tsx:21-24 | Empty query and list, `loading` true, no error. |
| SearchPage.SearchPageState.HandleSearchInputChange | app/pesquisa/page.tsx:63-65 | The query becomes the input's value. |
| SearchPage.SearchPageState.StartFetch | app/pesquisa/page.tsx:28-29 | `loading` becomes true and `error` becomes null. |
| SearchPage.SearchPageState.FinishFetch | app/pesquisa/page.tsx:30-46 | A good outcome sets the games to the results and keeps `error`. A failed one sets the error message and empties the games. `loading` ends false either way. |
| SearchPage.SearchPageState.TimerFires | app/pesquisa/page.tsx:50-55 | A fetch starts iff the query length is 0 or at least 2. Otherwise `loading` and `error` are unchanged. |
| SearchPage.SearchPageState.Search | app/pesquisa/page.tsx:27-55 | For a gated query nothing changes. After a fetch, a success shows the results (or the no-games notice) and a failure shows the error. |
| ContactPage.FormData.With | app/contato/page.tsx:22-25 | Sets exactly the named field; the other two keep their values. |
| ContactPage.WithOverwrites | app/contato/page.tsx:22-25 | Writing a field twice keeps only the second value, so repeating a change equals making it once. |
| ContactPage.WithCommutes | app/contato/page.tsx:22-25 | Changes to different fields commute. |
| ContactPage.WithSameValue | app/contato/page.tsx:22-25 | Writing a field its current value changes nothing. |
| ContactPage.FieldsDetermineRecord | app/contato/page.tsx:5-9 | Two records equal field by field are equal. |
| ContactPage.ContactForm.constructor | app/contato/page.tsx:12-16 | The form starts with all three fields empty. |
| ContactPage.ContactForm.HandleChange | app/contato/page.tsx:18-26 | The named field holds the value; the other two are unchanged. |
| ContactPage.ContactForm.HandleSubmit | app/contato/page.tsx:28-38 | Whatever the fields hold, the sent record is the form as it was and all three fields are empty again. |
| ContactPage.FillAndSubmit | app/contato/page.tsx:12-38 | Filling the three fields and submitting sends exactly those values and leaves the form empty. |

## Left out

- Browser storage is a `map<string, string>`, not a `map<string, int>`, because `localStorage` stores strings. Ratings are therefore written with `toString` and read with `parseInt`, and that round trip is proved.
- `JSON.stringify`/`JSON.parse`: the JSON text format is replaced by a length-prefixed format with the same round trip. The model does not capture what `JSON.parse` accepts beyond that, such as a hand-edited stored value.
- JsNumber.IntToString, JsNumber.ParseInt: numbers are modelled as exact integers, not IEEE doubles. The model does not capture `toString`'s exponent form from 1e21 on (`"1e+21"`, which `parseInt` reads as 1), `parseInt`'s rounding of digit runs beyond 2^53, or a `NaN` or fractional `initialRating` prop, which `StarRating.initialRating` (an `int`) cannot hold.
- `parseInt` is modelled for decimal text only. Hex prefixes and digits beyond 9 do not occur in what the widget writes. A stored non-integer such as "3.5" reads as 3, as in JavaScript.
- `FeedbackPage.FeedbackPage.Mount`: when `JSON.parse` throws, the page crashes. The model reports it as `threw` and changes nothing further.
- `new Date().toLocaleString('pt-BR')` is a parameter (`now`), because it reads the clock and depends on the locale.
- The debounce timer (`setTimeout`/`clearTimeout`, 500 ms) and the race between overlapping requests are left out, because they are about timing. The model runs one timer firing at a time, and then the request it starts settles.
- `fetch`, the RAWG URL and API key, and HTTP status handling are reduced to the outcome parameter of `SearchPage.SearchPageState.FinishFetch`.
- `SearchPage.Results`: a response that is OK but has no `results` field sets `games` to `undefined`, and the next render then fails. The model has no such state. A body that does not parse is treated as the `catch` path.
- Strings are sequences of Unicode scalar values, so a JavaScript string holding a lone surrogate has no counterpart. `JsString.Utf16Length` restores JavaScript's count of UTF-16 units where a length matters.
- Game ratings are JavaScript numbers. They appear as `real` and are only displayed.
- `alert`, `console.log`/`console.error`, the markup and its styling are left out, because they are output only.
- The inputs' `required` and `type="email"` checks are done by the browser before `onSubmit`. The handler itself has no validation, and the model follows the handler.
- The feedback list's render and the links to `/detalhes/<id>` are not modelled; they are markup only.
- The header, footer and authentication provider are not part of this model, because they are navigation markup and a wrapper over the Firebase SDK.
