# Emoji field extension for microCMS — a Dafny model

The widget is a microCMS field extension. It runs in an iframe and lets an
editor pick an emoji for a content field. Its logic is one React component,
`App` in `src/App.tsx`. The component has two pieces of state:
`selectedEmoji` and `isInitialized`. Three things change that state:

- the effect that adopts the field data the host supplies;
- `onEmojiSelect`, called by the picker;
- `clearSelection`, called by the clear button.

After every pick and every clear, the component sends the host one
field-update payload `{title, description, imageUrl, data}`.

The model has five modules:

- `Options` is the optional-value type. It stands for `null` and `undefined`.
- `Ascii` models `toLowerCase` over ASCII letters.
- `Payloads` holds the `EmojiData` record, the payload, and the builders of
  the description and image URL.
- `Widget` holds the state, the events, and one pure function per handler,
  plus `Step`, which dispatches an event to its handler.
- `Session` folds `Step` over event sequences. Its lemmas state the
  first-write-wins rule and the payload accounting over whole sessions.

A host-data event abstracts one run of the adoption effect with the field
data the host currently supplies. The outbound `sendMessage` call is modelled
as the payload that `Step` returns.

`onEmojiSelect` (src/App.tsx:30-49) does not set `isInitialized`. In the
model, a pick therefore leaves `initialized` alone. The hook's field data is
assumed to change only when the host pushes it (see "## Left out"). Under that
assumption, the first data-carrying host push after a pick still replaces the
picked emoji (`Session.PickDoesNotBlockHostData`). src/App.tsx has no handshake
listener and sends no size-update message, so neither is modelled. A pick
always sends its record as `data`, even with an empty glyph or code
(`Widget.OnEmojiSelect`).

## Model

| member | source | states |
|---|---|---|
| `Widget.OnFieldData` | src/App.tsx:23-28 | Non-null host data is adopted only while the flag is unset. It then becomes the selection exactly and sets the flag. Once the flag is set, or when the data is null, the state is unchanged. |
| `Widget.OnEmojiSelect` | src/App.tsx:30-49 | A pick replaces the selection wholesale with the four fields of the event and leaves the flag as it was. It sends one payload: the title is the glyph and the data is the new selection. The description is the name if it is non-empty, else the id, followed by ` (unified)`. The image URL embeds the lower-cased code. |
| `Widget.OnClear` | src/App.tsx:51-59 | A clear leaves no selection and keeps the flag, whatever the prior state. It sends exactly `{"", "", "", null}`. |
| `Widget.Step` | src/App.tsx:23-59 | A payload is sent exactly when the event is a pick or a clear. Host data that is null, or that arrives after the flag is set, changes nothing. The flag never goes back to unset, and only host data can set it. |
| `Payloads.PickPayload` | src/App.tsx:43-47 | The pick payload's title is the glyph and its data is the record. The description starts with the name when it is non-empty, else the id, and ends with ` (unified)`. The image URL reads back as the lower-cased code. |
| `Payloads.ImageUrl` | src/App.tsx:46 | The URL is the fixed CDN directory, then a code, then `.png`. The embedded code is lower-case and equals `unified` ignoring case. |
| `Payloads.ImageCodeRoundTrip` | src/App.tsx:46 | Stripping the CDN directory and `.png` from the URL gives back the lower-cased `unified`. |
| `Payloads.ImageUrlIgnoresCase` | src/App.tsx:46 | Two codes that differ only in letter case give the same URL. |
| `Payloads.DescriptionRoundTrip` | src/App.tsx:45 | The description is unambiguous when the code has no `(`: splitting it at its last ` (` gives back the name-or-id and the code. |
| `Ascii.ToLower` | src/App.tsx:46 | Lower-casing keeps the length and maps each character on its own. The result has no upper-case letter. |
| `Ascii.ToLowerIdempotent` | src/App.tsx:46 | Re-lowering a lower-cased code changes nothing. |
| `Ascii.ToLowerCharacterizes` | src/App.tsx:46 | The lower-cased string is the one and only lower-case string equal to the input ignoring case. |
| `Session.Run` | src/App.tsx:23-59 | Over any event sequence, the number of payloads sent equals the number of picks plus clears. A set flag stays set. |
| `Session.SentIsEmitted` | src/App.tsx:43-58 | The payloads sent are those of the picks and clears, in order. They do not depend on the state the events meet. |
| `Session.InitializedIffSeeded` | src/App.tsx:20-28 | After any sequence, the flag is set if and only if it was set at the start or some host push carried data. Picks and clears never set it. |
| `Session.HostDataIgnoredOnceInitialized` | src/App.tsx:24 | Once the flag is set, any run of host-data events leaves the state unchanged and sends nothing, whatever the data. |
| `Session.SelectionIsLastWrite` | src/App.tsx:23-59 | The selection is what the last write wrote. Every pick and clear writes. The first data-carrying host push writes too, when the session started uninitialised. |
| `Session.SelectionUnwritten` | src/App.tsx:19-28 | With no write in the sequence, the selection is the one the session started with. |
| `Session.FirstHostDataWins` | src/App.tsx:23-28 | Host data delivered before any user action is shown. A second, different push is ignored. |
| `Session.PickDoesNotBlockHostData` | src/App.tsx:24-40 | A pick does not set the flag, so a later first host push replaces the picked emoji. |
| `Session.GrinningExample` | src/App.tsx:43-47 | Picking "grinning" sends its glyph, `Grinning Face (1F600)`, the image `…/1f600.png` and the record. |

## Left out

- The JSX rendering (src/App.tsx:61-105), the `Picker` component and the emoji dataset: these are UI and library code.
- `useFieldExtension` and `sendMessage` (src/App.tsx:16-18) belong to a foreign library. A send is modelled as the payload `Step` returns. Delivery failures are not modelled.
- React's effect scheduling and dependency arrays: each run of the adoption effect is one `HostData` event.
- `console.log` (src/App.tsx:31) is I/O.
- `getOrigin` in src/config.ts reads the build environment. The origin it yields is only passed to the host library, so it does not affect the state machine.
- Ascii.ToLower: maps only the ASCII letters A-Z. JavaScript's `toLowerCase` also maps non-ASCII letters. `unified` is a hyphenated hex code, so the two agree on it.
- The picker's event object is typed `any` (src/App.tsx:30). The model narrows it to the four string fields of `EmojiData`. A missing `id`, `native` or `unified` would make JavaScript write `undefined` or throw in `toLowerCase`; that case is not modelled.
- Session.PickDoesNotBlockHostData: assumes the `data` of `useFieldExtension` changes only when the host pushes field data, and that `sendMessage` does not write it. The hook's source is not part of this model. If the hook stored the sent value locally, the adoption effect (src/App.tsx:23-28) would adopt the picked record and set the flag, and this scenario could not occur.
- The clear button is rendered only while something is selected (src/App.tsx:69, 83-84), so `clearSelection` never runs from an empty selection. The model lets `Clear` fire from any state. Every lemma quantifies over all event sequences, so this over-approximation falsifies none of them.
- Dafny strings are sequences of Unicode code points; JavaScript strings are UTF-16 code units. No contract depends on string length or indexing of the glyph, so the difference does not matter here.
