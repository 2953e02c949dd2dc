# Reveal machinery of SlackOffDocs, modelled in Dafny

SlackOffDocs makes reading look like typing. A text document is loaded and
kept hidden. Each keystroke in the editor reveals the next few characters,
and Backspace hides them again. This project models the part of the program
that decides what a keystroke does and what is shown:

- **Metadata store** (`doc_store.dfy`, module `Store`). This is the
  persisted record of `src/store/useDocStore.ts`: the active `docId`, the
  per-document maps of reveal offsets, titles and imported file names, and
  the global rate (characters per keystroke). It is a class whose fields the
  six actions replace. Each action's contract states its new state in full,
  including what it leaves alone. `Persisted()` is the record `partialize`
  hands to persistence (`src/store/useDocStore.ts:63-69`): exactly the data
  fields. `Valid()` is the invariant every action keeps: every recorded
  offset lies in `[0, MAX_SAFE_INTEGER]`.
- **Content store** (`source_store.dfy`, module `Sources`). Document texts
  live in a key/value database under `'fishdoc-source-' + docId`. The
  database is a class with one `map<string, string>` field and the three
  operations read, write and delete. `hashText` turns a document's SHA-1
  digest into its id. Its hex encoding (`toString(16)`, `padStart(2, '0')`,
  `join('')`) is modelled as pure functions over bytes. It is proved to give
  two lower-case digits per byte and to be undone by a decoder, so it is
  injective.
- **Editor** (`editor.dfy`, module `Editor`). The key handler sorts each key
  event in a fixed order: modifier held, IME composing, erase with a
  selection, plain erase, navigation key, anything else. It returns the
  request it makes and whether it cancels the browser default. The
  composition flag is the one field of the `EditorSurface` class. The
  rendered text is `text.slice(0, revealIndex)`.
- **Toolbar** (`toolbar.dfy`, module `Toolbar`). This holds the import flow
  that writes both stores, the rate input clamp, the progress percentage,
  and the fallbacks for the title and the document label.

`base.dfy` (module `Base`) holds `Option` (for `undefined`) and three
JavaScript conventions the code relies on:

- truthiness of an optional string: `undefined` and `''` are both "no
  document";
- `startsWith`;
- `slice(0, end)`.

Some behaviour of the code is easy to mistake; the model keeps it as written:

- `reveal` caps the offset at `Number.MAX_SAFE_INTEGER`, not at the text
  length. Only rendering cuts the offset to the text
  (`src/components/Editor.tsx:87`). So a stored offset may exceed the text
  length. `Editor.VisibleIsPrefix` shows that the rendered text is still a
  prefix of the source.
- An import reuses the active document's id whenever one is active
  (`src/components/Toolbar.tsx:53`). Only with no active document is the id
  the content hash. Importing a second file while a document is active
  therefore overwrites that document's text under the old id.
  `Toolbar.ImportTwice` states this.
- Backspace or Delete over a selection calls `deleteSnippet`. The store
  declares no such action (`src/store/useDocStore.ts:6-19`). The model
  records only the request `DeleteSnippet(text, start, length)`. It does not
  give a splice or an offset adjustment for it.
- `clearCurrent` forgets the metadata of the active document. It does not
  delete the stored text: `deleteSource` has no caller in the code.
- Editor and toolbar read a missing text as `''`
  (`src/components/Editor.tsx:22`, `src/components/Toolbar.tsx:45`), but
  `readSource` itself keeps absent (`None`) apart from the empty string.
- The import rejects a picked file that declares a type other than
  `text/plain`. A file with an empty type is accepted.

## Model

| member | source | states |
|---|---|---|
| `Store.Offset` | src/store/useDocStore.ts:34 | a document with an entry is at its recorded offset and one without an entry is at 0; under the store invariant the offset is in [0, MAX_SAFE_INTEGER] |
| `Store.NextOffset` | src/store/useDocStore.ts:35 | the new offset is always in [0, MAX_SAFE_INTEGER]; it is `prev + n` when that is in range, 0 below it, MAX_SAFE_INTEGER above it |
| `Store.RevealThenUnreveal` | src/store/useDocStore.ts:35 | away from both bounds, reveal(n) then reveal(-n) gives back the prior offset |
| `Store.RetreatAtZero` | src/store/useDocStore.ts:35 | a retreat from offset 0 leaves it at 0 |
| `Store.RevealMonotone` | src/store/useDocStore.ts:35 | an advance by k never lowers the offset and raises it by at most k; a retreat never raises it |
| `Store.DocStore.Persisted` | src/store/useDocStore.ts:63-69 | the persisted record carries exactly the five data fields `docId`, `progressByDoc`, `titleByDoc`, `fileNameByDoc` and `rate`, each equal to the store's |
| `Store.DocStore.constructor` | src/store/useDocStore.ts:24-28 | a fresh store has no active document, empty maps and a rate of 2 characters per keystroke |
| `Store.DocStore.SetDocId` | src/store/useDocStore.ts:30 | only `docId` changes; the persisted maps and rate are untouched |
| `Store.DocStore.Reveal` | src/store/useDocStore.ts:31-37 | with no active document the whole persisted state is unchanged; otherwise only the active entry changes, to NextOffset of its old value (0 if missing); other offsets, titles, names, rate and docId are kept; the invariant on offsets holds |
| `Store.DocStore.SetRate` | src/store/useDocStore.ts:38 | a supplied field overwrites the rate, an omitted one keeps it; nothing else changes |
| `Store.DocStore.SetTitle` | src/store/useDocStore.ts:39-43 | a no-op without an active document; otherwise only the active id's title is written |
| `Store.DocStore.SetFileName` | src/store/useDocStore.ts:44-48 | a no-op without an active document; otherwise only the active id's file name is written |
| `Store.DocStore.ClearCurrent` | src/store/useDocStore.ts:49-59 | a no-op without an active document; otherwise the active id leaves all three maps, `docId` becomes undefined, and every other id's entries and the rate are kept |
| `Sources.Key` | src/lib/sourceStore.ts:3 | every storage key is the prefix `fishdoc-source-` followed by the id, which can be read back from the key |
| `Sources.KeyInjective` | src/lib/sourceStore.ts:6 | two ids share a storage key exactly when they are equal |
| `Sources.Lookup` | src/lib/sourceStore.ts:5-7 | an id reads as present exactly when its key is in the database, and then as the stored text |
| `Sources.SourceDb.constructor` | src/lib/sourceStore.ts:5-7 | in an empty database every id reads as absent |
| `Sources.SourceDb.ReadSource` | src/lib/sourceStore.ts:5-7 | the result is present exactly when the id's key is stored, and is then the stored text; absent is not the empty string |
| `Sources.SourceDb.WriteSource` | src/lib/sourceStore.ts:9-11 | afterwards the id reads back the written text, replacing any earlier text; every other id reads as before |
| `Sources.SourceDb.DeleteSource` | src/lib/sourceStore.ts:13-15 | afterwards the id reads as absent; every other id reads as before |
| `Sources.ToBase16` | src/lib/sourceStore.ts:21 | `toString(16)` of a byte has one digit below 16 and two otherwise |
| `Sources.PadStart` | src/lib/sourceStore.ts:21 | `padStart` prepends only fill characters, up to the requested width |
| `Sources.ByteHex` | src/lib/sourceStore.ts:21 | a byte is written as two lower-case hex digits whose values, high digit times 16 plus low digit, give back the byte |
| `Sources.ByteHexDigits` | src/lib/sourceStore.ts:21 | each byte becomes exactly two lower-case digits, high nibble first, zero-padded |
| `Sources.HexEncode` | src/lib/sourceStore.ts:20-21 | the id has two characters per digest byte, all lower-case hex digits |
| `Sources.DecodeByteHex` | src/lib/sourceStore.ts:21 | decoding reads one two-digit byte off the front of an id and goes on with the rest |
| `Sources.HexRoundTrip` | src/lib/sourceStore.ts:17-21 | decoding the hex id gives back the digest bytes |
| `Sources.HexEncodeInjective` | src/lib/sourceStore.ts:17-21 | two digests have the same hex id exactly when they are equal |
| `Sources.HashText` | src/lib/sourceStore.ts:17-22 | for a 20-byte SHA-1 digest the id has 40 lower-case hex digits and decodes to that digest |
| `Editor.EditorSurface.constructor` | src/components/Editor.tsx:15 | the composing flag starts cleared |
| `Editor.EditorSurface.OnKeyDown` | src/components/Editor.tsx:28-61 | modifier: nothing; composing (event flags, `Process`, or the flag): nothing; erase with a non-collapsed selection inside the editor: `deleteSnippet(text, start, length)`; plain erase: reveal(-rate); navigation key: nothing; any other key: reveal(+rate); the default is cancelled exactly when something is requested |
| `Editor.EditorSurface.OnCompositionStart` | src/components/Editor.tsx:63-65 | sets the composing flag |
| `Editor.EditorSurface.OnCompositionEnd` | src/components/Editor.tsx:67-70 | clears the composing flag and requests exactly reveal(+rate) |
| `Editor.ImeSession` | src/components/Editor.tsx:63-70 | composition start, any number of key events, composition end: the only request is one reveal(+rate) |
| `Editor.CancelsBeforeInput` | src/components/Editor.tsx:77-84 | an input type of the form `insert…` or `delete…` is cancelled; any other type, or none, passes through |
| `Editor.RevealIndex` | src/components/Editor.tsx:86 | the active document's recorded offset; 0 with no active document or no entry |
| `Base.IsSet` | src/store/useDocStore.ts:33 | an optional id is truthy exactly when it is neither undefined nor the empty string |
| `Base.StartsWith` | src/components/Editor.tsx:81 | `s.startsWith(p)` holds exactly when `s` is `p` followed by some rest |
| `Base.SliceTo` | src/components/Editor.tsx:87 | `slice(0, end)` gives a prefix of length min(end, length) for end ≥ 0, and counts back from the end for a negative end |
| `Editor.Visible` | src/components/Editor.tsx:87 | the rendered text is always a prefix of the document text; for a non-negative offset its length is min(revealIndex, text length) |
| `Editor.VisibleIsPrefix` | src/components/Editor.tsx:86-87 | with non-negative offsets the rendered text is a prefix of the source of length min(revealIndex, text length) |
| `Editor.RenderedTextIsPrefix` | src/components/Editor.tsx:86-87 | for any store satisfying the invariant its actions keep, the rendered text is a prefix of the document text of length min(revealIndex, text length) |
| `Editor.RevealKeepsVisiblePrefix` | src/components/Editor.tsx:87 | an advance keeps the old visible text as a prefix of the new one and adds at most rate characters; a retreat only shortens it |
| `Toolbar.ImportId` | src/components/Toolbar.tsx:53 | the import id is the active id if there is one; otherwise it is the hex hash, which decodes to the text's digest; it is never empty |
| `Toolbar.OnFile` | src/components/Toolbar.tsx:51-57 | the text is stored under the chosen id and reads back; that id becomes active; its file name is recorded; offsets, titles and rate are unchanged |
| `Toolbar.OnPick` | src/components/Toolbar.tsx:59-65 | no file, or a file with a non-empty type other than `text/plain`, changes neither store; otherwise the file is imported as OnFile states: the database gains exactly the text under the chosen id, that id becomes active, its file name is recorded, and offsets, titles and rate are unchanged |
| `Toolbar.ImportTwice` | src/components/Toolbar.tsx:51-57 | two imports in a row use one id, the first import's, which stays active; the database gains exactly the second text under it, and other ids' texts are untouched; the second file name is recorded; offsets, titles and rate are unchanged; the store invariant holds |
| `Toolbar.RateFromInput` | src/components/Toolbar.tsx:128 | the rate is at least 1: the entered value when it is at least 1, and 1 for an empty input or a smaller value |
| `Toolbar.OnRateChange` | src/components/Toolbar.tsx:128 | the store's rate becomes the clamped input, so it is at least 1; nothing else changes |
| `Toolbar.Progress` | src/components/Toolbar.tsx:133 | 0 for an empty document; never above 100; not negative for a non-negative offset; 100 once the offset reaches the length; otherwise the nearest integer to 100·offset/length, halves rounded up; a shown 100 means the offset is at least 99.5% of the length |
| `Toolbar.RoundedShare` | src/components/Toolbar.tsx:133 | floor((200r + d) / 2d) lies within one half of 100r/d, is non-negative for r ≥ 0, and is at least 100 for r ≥ d |
| `Toolbar.RoundedShareAtCap` | src/components/Toolbar.tsx:133 | a rounded share of 100 or more needs 200r ≥ 199d, i.e. an offset of at least 99.5% of the length |
| `Toolbar.CurrentTitle` | src/components/Toolbar.tsx:21 | the shown title is the active document's non-empty title, otherwise `Untitled document`; it is never empty |
| `Toolbar.CommittedTitle` | src/components/Toolbar.tsx:85-93 | a finished edit commits the typed title, or `Untitled document` when it is empty |
| `Toolbar.CommitTitleEdit` | src/components/Toolbar.tsx:85-93 | with an active document the committed title is stored for it and is the title then shown, and every other persisted field is unchanged; without one nothing changes |
| `Toolbar.DocLabel` | src/components/Toolbar.tsx:119 | `No document loaded` without an active document; else `Doc: ` and the recorded file name; else `Doc: `, the first min(8, length) characters of the id, and an ellipsis |

## Left out

- `Store.DocStore.Reveal`: offsets and rates are unbounded integers. The
  source adds JavaScript numbers (floating point), which lose exactness
  above 2^53. A fractional or NaN rate cannot occur in the model.
- `Store.DocStore.Reveal`, `Store.Offset`, `Toolbar.CurrentTitle` and
  `Toolbar.DocLabel`: the per-document maps are plain JavaScript objects
  indexed by `[id]`. An id that names a member of `Object.prototype`, such as
  `constructor` (which the URL hash can set as the active id,
  src/App.tsx:17-19), is read through the prototype in the source: the
  offset becomes NaN, the title a function, and the label `Doc: function
  Object()…`. The model's maps have no prototype, so such an id reads as
  absent; this behaviour is not captured.
- `Toolbar.OnFile`: the awaited calls can reject. `file.text()` can fail to
  read the file, `hashText` fails where `crypto.subtle` is absent (outside a
  secure context), and `writeSource` can fail on a full quota. Each
  rejection aborts `onFile` before `setDocId` and `setFileName`
  (src/components/Toolbar.tsx:52-56), so the active id and the file names
  stay as they were. The model treats each call as succeeding.
- `Toolbar.Progress`: computed exactly, as min(100, floor((200·offset +
  length) / (2·length))). The source divides and rounds in floating point,
  which may differ from this at exact halves.
- `Toolbar.RateFromInput`: the input value is taken as empty or an integer.
  Number parsing and fractional values are not modelled.
- `Sources.HashText`: the SHA-1 digest and the UTF-8 encoding are platform
  calls (`crypto.subtle.digest`, `TextEncoder`). They are one
  function-valued parameter, required to return 20 bytes.
- The text `deleteSnippet` would write and the offset it would leave. The
  store has no such action, so only the request is modelled.
- Asynchronous persistence. This covers IndexedDB through `idb-keyval`, the
  `persist` middleware that saves `Persisted()` under `fishdoc-meta`, the
  text loading effects with their `ignore` guards, and Promise ordering.
  Every operation is modelled as completing at once, in call order.
- DOM mechanics: caret placement after each render, the `innerText`
  overwrite after a composition, how `window.getSelection` yields the start
  offset and length, the menu hover timers, `alert`, the `value = ''` reset
  of the file input, and all rendering and styling. The selection enters
  the model as the fields the handler tests.
- The title editing state (double-click to edit, `tempTitle`): only the
  commit rule and the fallback are modelled.
- String lengths: the source counts UTF-16 code units, the model counts
  characters.
- `setRate` given an explicit `undefined` field. The spread would store
  `undefined`; the model treats an omitted field and an undefined one alike.
- src/components/Ruler.tsx (floating-point layout), src/App.tsx (URL hash
  routing), src/lib/pdfHelper.ts (an external PDF library) and src/main.tsx
  (bootstrap) are not part of this model.
