# Regulatory Standards Bill submission builder — Dafny model

This project models the logic of the submission builder, a five-step wizard.
The wizard helps a citizen draft a written submission on the Regulatory
Standards Bill. The component holds two pieces of state: a step number and a
flat draft record. The draft has personal details, a submission type, five
free-text answers and an insertion-ordered selection of "principle concerns"
taken from a catalog of seven statements. On the last step the component
renders the draft into a fixed plain-text preview that the user copies.

The model has four modules:

- `Concerns` (`concerns.dfy`): the catalog, the filter used by the toggle
  (`Remove`) and the toggle itself (`Toggle`). It proves the toggle's
  membership flip, the order it keeps, its invariants, and what toggling twice
  does.
- `Drafts` (`drafts.dfy`): the draft record and its initial value. It has a
  `SubmissionType` enum with the two values the radio inputs emit, `personal`
  and `organisation`. It also has the one-field updates that the editors
  perform with an object spread.
- `Preview` (`preview.dfy`): the preview template. `Render` evaluates the
  template literal: its ten fixed texts (`Literals`) are interleaved with the
  ten interpolated values (`Values`). Section 3 is `ConcernLines`, the
  `map`/`join('')` over the concern list. The lemmas prove where each value
  sits in the output and how section 3 is built.
- `Builder` (`builder.dfy`): the component itself, as the class
  `SubmissionBuilder`. It has mutable fields `step` and `draft`, and one method
  per handler: `GoTo`, `Edit`, `ChooseType`, `TogglePrinciple`, `Load` and
  `CopyText`. Each handler is one atomic state change.

Points where the code behaves differently from what one might expect, and
which the model follows:

- One might expect toggling a concern twice to restore the list. The code does
  this only when the concern was absent. A present concern comes back at the
  end of the list (`ToggleTwicePresent`). On a duplicate-free list, toggling
  twice is the identity exactly when the concern was absent or already last
  (`ToggleTwiceIdentity`).
- A comment in the record's initial value calls the second submission type
  "organisational". The radio input emits `organisation`, which is the value
  the model uses.
- A malformed stored draft is not caught: the restore step would throw from
  `JSON.parse`. See "Left out".
- Three text fields have no editor in the code: `mechanisms_feedback`,
  `board_views` and `powers_concerns`. The panels for steps 3 and 4 are not
  part of the component. So `Edit` is only allowed on the five fields that do
  have an input (`Drafts.Editable`). The other three change only through
  `Load`.

## Model

| member | source | states |
|---|---|---|
| `Concerns.CatalogIsValid` | src/SummissionBuilder.tsx:30-38 | the constant `Catalog` holds the seven statements of the source, all distinct, so it is itself a valid selection |
| `Concerns.NoDuplicates` | src/SummissionBuilder.tsx:40-46 | the selection invariant "no concern occurs twice", as a definition; preserved by `ToggleKeepsNoDuplicates` |
| `Concerns.FromCatalog` | src/SummissionBuilder.tsx:30-38 | the selection invariant "every concern is one of the catalog statements", as a definition; preserved by `ToggleKeepsValid` |
| `Concerns.ValidSelection` | src/SummissionBuilder.tsx:30-46 | both selection invariants together, as a definition; bounded by `ValidSelectionBounded` |
| `Concerns.Remove` | src/SummissionBuilder.tsx:44 | the filter drops every occurrence of the concern, keeps every other element, and keeps the count of each other element (multiset with the concern's count set to 0) |
| `Concerns.RemoveIsSubsequence` | src/SummissionBuilder.tsx:44 | the filtered list is an order-preserving subsequence of the original |
| `Concerns.RemoveAppend` | src/SummissionBuilder.tsx:44 | filtering distributes over list concatenation |
| `Concerns.RemoveAbsent` | src/SummissionBuilder.tsx:44 | filtering out an absent concern returns the list unchanged |
| `Concerns.RemoveSingle` | src/SummissionBuilder.tsx:44 | filtering the only occurrence out of `a + [c] + b` gives `a + b` |
| `Concerns.RemoveNoDuplicates` | src/SummissionBuilder.tsx:44 | filtering a duplicate-free list keeps it duplicate-free |
| `Concerns.Toggle` | src/SummissionBuilder.tsx:43-45 | after a toggle the concern's membership is flipped, and every other string's membership is unchanged |
| `Concerns.ToggleAbsent` | src/SummissionBuilder.tsx:45 | toggling an absent concern appends it as the last element, and every earlier element keeps its position |
| `Concerns.TogglePresent` | src/SummissionBuilder.tsx:43-44 | toggling a present concern removes all its occurrences; the rest is an order-preserving subsequence with the same element counts |
| `Concerns.ToggleKeepsNoDuplicates` | src/SummissionBuilder.tsx:43-45 | toggling any concern, from the catalog or not, keeps a duplicate-free selection duplicate-free |
| `Concerns.ToggleKeepsValid` | src/SummissionBuilder.tsx:30-46 | toggling a catalog concern keeps the selection duplicate-free and within the catalog |
| `Concerns.ToggleTwiceAbsent` | src/SummissionBuilder.tsx:43-45 | toggling an absent concern twice restores the exact original list |
| `Concerns.ToggleTwicePresent` | src/SummissionBuilder.tsx:43-45 | toggling a present concern twice gives the filtered list with the concern appended; the set of elements is the same as before |
| `Concerns.ToggleTwiceMovesToEnd` | src/SummissionBuilder.tsx:43-45 | for a duplicate-free `a + [c] + b`, toggling `c` twice yields `a + b + [c]` |
| `Concerns.OnlyOccurrence` | src/SummissionBuilder.tsx:43-45 | in a duplicate-free `a + [c] + b`, the concern occurs in neither `a` nor `b` |
| `Concerns.ToggleTwiceIdentity` | src/SummissionBuilder.tsx:43-45 | on a duplicate-free list, toggling twice restores the list if and only if the concern was absent or already the last element |
| `Concerns.ValidSelectionBounded` | src/SummissionBuilder.tsx:30-46 | a valid selection never has more elements than the seven-item catalog |
| `Drafts.Label` | src/SummissionBuilder.tsx:128-150 | the stored type text is "personal" exactly for a personal submission and "organisation" exactly for an organisation submission |
| `Drafts.Editable` | src/SummissionBuilder.tsx:107-183 | the fields with an input in the component are all but `mechanisms_feedback`, `board_views` and `powers_concerns` |
| `Drafts.Text` | src/SummissionBuilder.tsx:5-16 | reads one free-text field of the record, as a definition; its properties are stated by `WithText` and `DraftExtensionality` |
| `Drafts.WithText` | src/SummissionBuilder.tsx:107-183 | an editor sets its own field to the new value; every other text field, the concern list and the type are carried over unchanged |
| `Drafts.WithType` | src/SummissionBuilder.tsx:128-150 | the radio handler sets the type and carries over every text field and the concern list |
| `Drafts.WithToggled` | src/SummissionBuilder.tsx:40-47 | the toggle handler flips the concern's membership in the list, keeps every other membership, and leaves every text field and the type unchanged |
| `Drafts.DraftExtensionality` | src/SummissionBuilder.tsx:5-16 | a draft is entirely determined by its text fields, concern list and type |
| `Drafts.WithTextSame` | src/SummissionBuilder.tsx:107-183 | writing a field's current value back leaves the draft unchanged |
| `Drafts.WithTextOverwrite` | src/SummissionBuilder.tsx:107-183 | of two edits to the same field, the last one wins |
| `Drafts.WithTextCommute` | src/SummissionBuilder.tsx:107-183 | edits to two different fields commute |
| `Drafts.InitialIsValid` | src/SummissionBuilder.tsx:5-16 | the constant `Initial`, the initial draft, has every text empty, an empty (valid) selection and the type "personal" |
| `Preview.Join` | src/SummissionBuilder.tsx:64 | `join('')` of a single part is that part, and every part is no longer than the joined text |
| `Preview.Bullet` | src/SummissionBuilder.tsx:64 | a section 3 line is "- ", then the concern verbatim, then a newline, and is three characters longer than the concern |
| `Preview.ConcernLines` | src/SummissionBuilder.tsx:64 | the section 3 body is empty exactly when no concern is selected, and is at least three characters longer than each selected concern |
| `Preview.Bullets` | src/SummissionBuilder.tsx:64 | the map gives one line per concern, in order, each the concern between "- " and a newline |
| `Preview.Values` | src/SummissionBuilder.tsx:52-73 | the template interpolates exactly one value per fixed text |
| `Preview.JoinAppend` | src/SummissionBuilder.tsx:64 | `join('')` distributes over concatenation of the part lists |
| `Preview.ConcernLinesAppend` | src/SummissionBuilder.tsx:64 | the section 3 body of a concatenated concern list is the two bodies one after the other |
| `Preview.ConcernLinesSmall` | src/SummissionBuilder.tsx:64 | an empty selection gives an empty section 3 body; a single concern gives exactly its one bullet line |
| `Preview.ConcernLineAt` | src/SummissionBuilder.tsx:64 | the bullet line for the concern at each index comes after all earlier lines and before all later ones |
| `Preview.ConcernLinesAround` | src/SummissionBuilder.tsx:64 | the section 3 body of `a + [c] + b` is the lines of `a`, then the line of `c`, then the lines of `b` |
| `Preview.ToggleAbsentAddsLine` | src/SummissionBuilder.tsx:40-64 | toggling an absent concern adds exactly its bullet line at the end of section 3 |
| `Preview.TogglePresentDropsLine` | src/SummissionBuilder.tsx:40-64 | in a duplicate-free list `a + [c] + b`, toggling `c` removes exactly its one bullet line; the lines of `a` and `b` are kept in order |
| `Preview.Fill` | src/SummissionBuilder.tsx:50-73 | evaluating a template literal: no fixed text gives the empty string, and otherwise the text starts with the first fixed text and the first value |
| `Preview.Render` | src/SummissionBuilder.tsx:49-74 | `generatePreview` itself: every preview begins with "SUBMISSION ON THE REGULATORY STANDARDS BILL" and ends with the text of section 6; its full layout is stated by `PreviewLayout` |
| `Preview.FillAt` | src/SummissionBuilder.tsx:50-73 | the filled template splits, around any value, into the fill of the earlier pieces, that value's fixed text and value, and the fill of the later pieces |
| `Preview.FillPrefix` | src/SummissionBuilder.tsx:50-73 | filling one more fixed text and value extends the filled prefix by exactly those two |
| `Preview.ValueAt` | src/SummissionBuilder.tsx:50-73 | in a filled template, each value appears verbatim right after its fixed text, and the last value ends the text |
| `Preview.NextValueStart` | src/SummissionBuilder.tsx:50-73 | in a filled template, the next fixed text follows each value directly |
| `Preview.PreviewLayout` | src/SummissionBuilder.tsx:50-73 | the preview has name, email, location, type and sections 1 to 6 verbatim, each right after its fixed heading and in this fixed order, with nothing else between them and nothing after section 6 |
| `Preview.InitialPreview` | src/SummissionBuilder.tsx:5-73 | for the initial draft, the details and section bodies are empty, the type reads "personal", and section 3 has no lines |
| `Preview.SingleConcernPreview` | src/SummissionBuilder.tsx:63-64 | with one selected concern, the section 3 body is exactly that concern's single bullet line, placed right after the section 3 heading |
| `Builder.SubmissionBuilder.Valid` | src/SummissionBuilder.tsx:4 | the step invariant, as a definition: the step is in [1,5]; established by the constructor and kept by every method |
| `Builder.SubmissionBuilder.constructor` | src/SummissionBuilder.tsx:4-16 | the component starts on step 1 with the initial draft, which is a valid selection |
| `Builder.SubmissionBuilder.Load` | src/SummissionBuilder.tsx:18-23 | a stored draft, if present, replaces the whole draft; otherwise nothing changes; the step is untouched |
| `Builder.SubmissionBuilder.GoTo` | src/SummissionBuilder.tsx:90-93 | navigation sets the step to the requested value in 1..5, keeps the step within [1,5], and never changes the draft |
| `Builder.SubmissionBuilder.Edit` | src/SummissionBuilder.tsx:107-183 | an editor replaces exactly one text field; the step and the concern invariant are kept |
| `Builder.SubmissionBuilder.ChooseType` | src/SummissionBuilder.tsx:128-150 | the radio handler replaces only the type; the step is kept |
| `Builder.SubmissionBuilder.TogglePrinciple` | src/SummissionBuilder.tsx:40-47 | the toggle replaces only the concern list, by its toggled value; any concern keeps the list duplicate-free; a catalog concern keeps the selection valid; the step is kept |
| `Builder.SubmissionBuilder.CopyText` | src/SummissionBuilder.tsx:223-224 | the clipboard payload on step 5 is the rendered preview of the current draft, and it starts with the bill's title |
| `Builder.NavigationKeepsDraft` | src/SummissionBuilder.tsx:90-193 | a session that goes to steps 2, 3, 4, 5 and back to 1 ends on step 1 with the draft unchanged |
| `Builder.ToggleTwiceSession` | src/SummissionBuilder.tsx:40-47 | in a session, toggling the same absent concern twice restores the draft exactly |

## Left out

- Persisting the draft after every change (src/SummissionBuilder.tsx:26-28) is browser storage plus `JSON.stringify`, so it is not modelled. The persist-then-load round trip is therefore not stated.
- Builder.SubmissionBuilder.Load: receives an already-decoded `Option<Draft>`. Reading storage and `JSON.parse` are not modelled. In the code, a stored blob that is not valid JSON makes `JSON.parse` throw, because nothing catches the error. JSON that decodes to some other shape would replace the draft with that shape. Neither case has a matching `Draft` value.
- Builder.SubmissionBuilder.Edit: does not require the editor's panel to be on screen. In the code, the inputs for name, email, location and type exist only on step 1, and those for the two regulation answers only on step 2. The state change itself does not depend on the step.
- Builder.SubmissionBuilder.GoTo: requires the target to be in 1..5. `setStep` accepts any number, but every call site in the component passes a literal from 1..5 (:93, :154, :187, :193).
- Concerns.ToggleKeepsValid: needs the toggled concern to be in the catalog. The code does not check this. Its only caller would be the step-3 panel, which is not part of the component.
- The clipboard write (:224) and the hyperlink to the consultation form (:214-221) are side effects with no logic. `CopyText` models only the payload.
- JSX rendering, CSS classes and the input widgets (:76-234) are user interface and are not modelled. `CopyText` requires step 5 because the copy button exists only on that panel.
- The panels for steps 3 and 4 are not part of the component (:202-203). Their content is not modelled; the model only shows that steps 3 and 4 are reachable.
- Strings are modelled as sequences of Unicode scalar values, while JavaScript strings are UTF-16 code units. A lone surrogate cannot be represented, and `ValueStart` counts scalar values rather than code units. The core only concatenates and compares strings, so no behaviour is lost.
- React's effect scheduling and re-rendering are not modelled. Each handler is one atomic transition. So the editors' spread of the render-time `formData` and the toggle's functional update on `prev` give the same result.
