# agri-trace pages, modelled in Dafny

agri-trace is a supply-chain traceability front end. Batches of produce are
registered on a ledger, and every handler along the chain (producer,
processor, retailer, certifier) records events against a batch. All of its
logic sits in two React pages, and this project models those two.

* **Record event** (`src/components/AddEvent.tsx`):
  * The event-type menu, filtered by the user's numeric role.
  * The form and how one input changes it.
  * The JSON metadata ("data reference") built from the form and sent with
    the event.
  * The page's batch loader and submit handler.
* **Batch view** (`src/components/BatchView.tsx`):
  * The event-type names.
  * The shortened account address.
  * The badge colours.
  * The history timeline, with its latest entry and connector lines.
  * The loader, and the cascade that chooses between the loading, error,
    not-found and details screens.

The files:

* `types.dfy`: the event-type enumeration and its ledger codes, plus the
  batch, event and profile records. `../types` is not part of this model.
  The codes Shipment = 1 and Quality Check = 3 come from the pages
  themselves, and the rest follow the enumeration's order.
* `js.dfy`: the JavaScript behaviour the pages rely on:
  * `slice` with negative positions;
  * `Number(s)` and `String(n)` on integers;
  * the truthiness of a `string | null`.
* `json.dfy`: `JSON.stringify` of a flat object with string and integer
  members. Strings are escaped as RFC 8259 section 7 allows and as
  ECMAScript's QuoteJSONString does it. A decoder serves as its round-trip
  partner.
* `gateway.dfy`: the blockchain service as the pages see it. Each awaited
  call either returns a value or throws a message. A handler is given the
  replies as inputs and returns the calls it made, in order.
* `add_event.dfy` and `batch_view.dfy`: the two pages. Each page's state
  (`useState` hooks) is a class whose fields the handlers update in place.
  What the page renders for a state is a pure function of those fields.

Where the system's written description and its code differ, the model
follows the code:

* `recordEvent` is sent the form's event type as it stands. Nothing re-checks
  it against the role table, and there is no `Unauthorized` outcome.
* When `getBatchHistory` fails after `getBatch` succeeded, the batch view
  does not show the batch with a "history unavailable" notice. It keeps the
  batch in its state but stores the error, and the error screen wins
  (`BatchViewPage.LoadBatchData`). The "Event History Unavailable" panel
  appears only for a batch whose history loaded as an empty list.
* The record-event page's loader neither clears an earlier error nor
  connects the service first. Only the batch view's loader does both.
* The event's type is not part of the data reference. The timestamp is shown
  through the locale, which is not modelled.

## Model

| member | source | states |
|---|---|---|
| Types.FromCode | src/components/BatchView.tsx:57-63 | exactly the codes 0..4 name an event type, and the type named has that code |
| Types.CodeRoundTrip | src/components/BatchView.tsx:57-63 | decoding an event type's code gives the type back, so no two types share a code |
| Js.Slice | src/components/BatchView.tsx:68 | `s.slice(start, end)` is the characters from the resolved start (negative positions counted from the end, clamped to the text) up to the resolved end, none when the start is not before the end; for 0 <= start <= end the characters start..end clamped to the length |
| Js.SliceFrom | src/components/BatchView.tsx:68 | `s.slice(start)` drops the first min(start, \|s\|) characters for a non-negative start, and keeps the last min(-start, \|s\|) for a negative one |
| Js.ToNumber | src/components/AddEvent.tsx:99 | `Number(s)` is NaN exactly for a non-empty text that is not an optionally signed digit run; the empty text is 0, a digit run its decimal value, and a signed run its value with the sign |
| Js.DecimalText | src/components/AddEvent.tsx:193 | `String(n)`: a minus sign exactly for a negative `n`, then the digits of its magnitude without leading zeros |
| Js.ToNumberOfDecimalText | src/components/AddEvent.tsx:99 | `Number(String(n))` is `n` for every integer, so an option value read back gives its code |
| Js.DigitsValueOfDecimal | src/components/AddEvent.tsx:99 | reading back the decimal digits of `n` gives `n` |
| Json.Lookup | src/components/AddEvent.tsx:63-70 | a key is found exactly when some member carries it |
| Json.EscapeChar | src/components/AddEvent.tsx:63-70 | a character is written as itself exactly when it is neither a quote, a backslash nor a control character; quote, backslash, backspace, tab, line feed, form feed and carriage return get their two-character escapes, and every other control character a `\u00xx` escape whose four hex digits are its code |
| Json.ParseEscaped | src/components/AddEvent.tsx:63-70 | the escaped text of any string decodes back to that string, stopping at the closing quote |
| Json.Stringify | src/components/AddEvent.tsx:63 | the serialised object is enclosed in braces, and is `{}` exactly for an object without members |
| Json.ParseStringify | src/components/AddEvent.tsx:63-70 | decoding the serialised object gives back its members, in their order |
| Json.StringifyInjective | src/components/AddEvent.tsx:63-70 | equal serialisations come from equal member lists |
| Gateway.ErrorText | src/components/AddEvent.tsx:86 | `err.message \|\| fallback`: the message when it is not empty, otherwise the fallback, and truthy whenever the fallback is |
| AddEvent.FilterByRole | src/components/AddEvent.tsx:114-116 | the filtered menu is a subsequence of the menu: entries are kept in order |
| AddEvent.FilterByRoleMembers | src/components/AddEvent.tsx:114-116 | an entry is kept exactly when its role list holds the role (sound and complete) |
| AddEvent.AvailableEventTypes | src/components/AddEvent.tsx:103-117 | nothing without a profile; otherwise exactly the menu entries whose roles hold the user's role, in menu order, and never Harvest |
| AddEvent.FilterAllEvents | src/components/AddEvent.tsx:106-116 | the entries each role keeps: 1 Shipment, 2 Processing and Quality Check, 3 Sale, 4 Quality Check, any other role nothing |
| AddEvent.AvailableByRole | src/components/AddEvent.tsx:106-116 | the event types offered per role, in menu order, as above |
| AddEvent.MayRecord | src/components/AddEvent.tsx:107-110 | the role table read per event type: only roles 1 to 4 may record anything, and nobody records Harvest from this page |
| AddEvent.OfferedIffMayRecord | src/components/AddEvent.tsx:107-115 | a type is offered exactly when the role table lets the user's role record it |
| AddEvent.InitialTypeNotOffered | src/components/AddEvent.tsx:27-33 | the form opens on the Shipment code (1), and for roles 2, 3 and 4 that code is not on the menu they are shown |
| AddEvent.OptionalMember | src/components/AddEvent.tsx:66-67 | `text \|\| undefined`: one member holding the text when it is non-empty, none when it is empty |
| AddEvent.Payload | src/components/AddEvent.tsx:63-70 | the payload member by member: notes and location first, the quality score and certificate only when non-empty, then recordedBy and role, with the form's and profile's values and no key twice |
| AddEvent.DataHash | src/components/AddEvent.tsx:63-70 | the data reference decodes back to the payload it was written from |
| AddEvent.PayloadMembers | src/components/AddEvent.tsx:63-70 | notes, location, recordedBy and role are always present with the form's and profile's values; qualityScore and certificateHash are present exactly when their text is non-empty; no key repeats; the event type does not affect the payload |
| AddEvent.PayloadKeyOrder | src/components/AddEvent.tsx:63-70 | keys in the order notes, location, [qualityScore], [certificateHash], recordedBy, role |
| AddEvent.DataHashInjective | src/components/AddEvent.tsx:63-70 | equal data references come from equal text fields and the same profile |
| AddEvent.WithInput | src/components/AddEvent.tsx:95-100 | the named field alone changes; the event type is stored as `Number(value)`, a text field as the value itself |
| AddEvent.InputChangesCompose | src/components/AddEvent.tsx:97-100 | changes to two different inputs commute, and the later of two changes to one input wins |
| AddEvent.PickingAnOptionStoresItsCode | src/components/AddEvent.tsx:185-196 | choosing a menu option (valued `String(code)`) stores exactly that code |
| AddEvent.ScreenOf | src/components/AddEvent.tsx:119-280 | spinner while loading; error panel showing the error exactly when an error is set and no batch is loaded; otherwise the form with the user's menu, success and error banners shown exactly when their texts are truthy and showing those texts, the quality inputs exactly for code 3, and the button busy exactly while submitting |
| AddEvent.AddEventPage.constructor | src/components/AddEvent.tsx:15-33 | loading, no batch, no banners, not submitting, the initial form |
| AddEvent.AddEventPage.LoadBatchData | src/components/AddEvent.tsx:39-51 | no id: nothing happens. Otherwise one `getBatch`; its batch or its error text is stored, an earlier error is kept, loading ends false, and a failure with no batch shows the error panel |
| AddEvent.AddEventPage.HandleInputChange | src/components/AddEvent.tsx:92-101 | the form becomes `WithInput` of the old form |
| AddEvent.AddEventPage.HandleSubmit | src/components/AddEvent.tsx:53-90 | no id or profile: nothing happens. Otherwise `recordEvent` with the form's event type unchecked and the data reference; the history is fetched only after it returns; success only when both returned, else the first error's text; never both; submitting ends false; batch and form untouched |
| AddEvent.AddEventPage.Send | src/components/AddEvent.tsx:57-89 | banners cleared, the record call sent, the history fetched only after it returned; success exactly when both returned, otherwise the first thrown message (or the fallback); submitting ends false; batch, loading and form untouched |
| BatchView.EventTypeName | src/components/BatchView.tsx:56-65 | codes 0..4 are named Harvest, Shipment, Processing, Quality Check, Sale; every other code "Unknown" |
| BatchView.UnknownIffNoEventType | src/components/BatchView.tsx:56-65 | "Unknown" is shown exactly for the codes that name no event type |
| BatchView.BadgeOf | src/components/BatchView.tsx:221-225 | red exactly for Sale and unknown codes; green, blue, purple, yellow for Harvest, Shipment, Processing, Quality Check |
| BatchView.FormatAddress | src/components/BatchView.tsx:67-69 | first min(6, \|s\|) characters, "...", last min(4, \|s\|) characters; for \|s\| >= 10 a 13-character text made of the first 6, "..." and the last 4 |
| BatchView.Timeline | src/components/BatchView.tsx:207-251 | one entry per event in input order; the dot is green exactly for the last entry; a connector exactly below entries that have a successor; each card has the event's badge colour and name, the shortened recorder address, and the data reference or "No additional data" when it is empty |
| BatchView.TimelineCounts | src/components/BatchView.tsx:207-213 | a non-empty timeline has exactly one latest entry and \|events\| - 1 connectors; an empty one has none |
| BatchView.TruesOfPrefix | src/components/BatchView.tsx:212 | when exactly the first k entries are marked, k are marked |
| BatchView.TruesOfSingle | src/components/BatchView.tsx:211 | when exactly one index is marked, one entry is marked |
| BatchView.HistoryOf | src/components/BatchView.tsx:195-205 | the "history unavailable" panel exactly for an empty event list, otherwise the timeline |
| BatchView.ScreenOf | src/components/BatchView.tsx:71-171 | loading first, then a truthy error, then a missing batch, then the details with the shortened creator, the event count and the history |
| BatchView.BatchViewPage.constructor | src/components/BatchView.tsx:13-16 | loading, no batch, no events, no error |
| BatchView.BatchViewPage.LoadBatchData | src/components/BatchView.tsx:22-50 | no id: nothing happens. Otherwise the error is cleared; `connect` only without a contract; the batch is stored before the history is fetched, and the history is fetched only after `getBatch` returned; the first throw's text becomes the error; loading ends false; the error screen shows exactly when an error was stored; a history failure after the batch loaded keeps the batch in the state but ends on the error screen |

## Left out

- Rendering beyond the choice of screen and the timeline marks (markup, styles, the product line, the role hint), navigation, the two-second redirect after a recorded event, and console logging.
- The blockchain service itself (`connect`, `getBatch`, `getBatchHistory`, `recordEvent`): it is a network client whose code is not part of this model. Each call's outcome is an input, either a returned value or a thrown message, and nothing is assumed about the ledger's consistency. The history fetched after a submit is only logged by the page, so only whether it returned matters.
- `formatTimestamp` and the locale-dependent date text: they depend on the clock's time zone and the locale.
- `parseInt` of the route id: the id is taken as already parsed, a natural number or absent.
- Async interleaving and React's batching of state updates: each handler runs as one sequential step. The intermediate `loading`/`submitting = true` states are set but not observable in the model.
- src/components/AllBatches.tsx: it only lists batches, and its address shortening is the same as `BatchView.FormatAddress`.
- Js.ToNumber: covers the texts a form sends as integers (empty, or optionally signed decimal digits). Whitespace, fractions, exponents, hexadecimal and `Infinity` all give NaN in the model, where JavaScript would give a number.
- Js.Number: JavaScript numbers are IEEE doubles, but the model's are exact integers. `Number(s)` of a digit run above 2^53 rounds in JavaScript and is exact here. `String(n)` and `JSON.stringify` write a magnitude of 10^21 or more in exponent form (`1e+21`), while `Js.DecimalText` writes every digit. Neither case arises for the roles 1 to 4 that reach the payload.
- Js.Slice: JavaScript counts string positions in UTF-16 code units, the model in characters (Unicode scalar values). `FormatAddress` therefore differs from the page only on text holding characters outside the Basic Multilingual Plane, which hexadecimal account addresses never do.
- Json.Stringify: covers only objects of string and integer members, which is what the payload holds. Lone UTF-16 surrogates cannot occur in a Dafny string, so their `\u` escapes are not modelled, and the decoder refuses surrogate escapes.
- UserProfile: a profile always has a name. A profile without one would be serialised without `recordedBy`, and that case is not modelled.
