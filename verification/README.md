# Landing page logic, modelled in Dafny

This project models the three pieces of logic in the landing page's components.

- **Spark trail cursor** (`components/CustomCursor.tsx`). Each pointer move measures its distance from the last pointer position and records the new position. Unless the idle gate suppresses it, the move appends between one and five sparks to a growable particle store. Each animation frame moves every spark by its velocity and lowers its life by its decay. A spark whose life reaches zero is spliced out of the store during the same loop.
- **Template gallery filter** (`components/TemplateGallery.tsx`). The gallery has a fixed table of six templates. "All" shows all of them. Any other category shows the templates of that category, in table order. When nothing matches, an empty-state panel appears.
- **AI proposal modal** (`components/AiModal.tsx`). This is a three-step wizard: input, then generating, then success. It has a blank-prompt guard and a reset when the modal opens. An interval adds a random amount below 15 to an accumulator. The accumulator is clamped at 100, and a delayed timeout then switches the wizard to success.

Files:

- `seqs.dfy` (module `Seqs`): the array `map` and `filter` operations, and the definition of an order-preserving subsequence.
- `cursor.dfy` (module `Cursor`): particles and the spawn rule.
  - `Step` is the specification of one frame: `Filter(Alive, Map(Advance, store))`.
  - The class `ParticleTrail` holds the store as a `seq` field.
  - `ParticleTrail.Render` mirrors the source's `splice(i, 1); i--` loop. It is proved to produce exactly `Step` of the old store, and to pick up each old particle once, in order.
- `gallery.dfy` (module `Gallery`): the template table, the categories, the filter and facts about the concrete data.
- `modal.dfy` (module `AiModal`):
  - `String.prototype.trim` over the ECMAScript whitespace set.
  - The class `Modal`, whose transitions are `Open`, `Close`, `SetPrompt`, `Generate`, `Tick(k, inc)` and `Finish`.
  - The predicate `Consistent`, which states the wizard's intended invariant.

Random draws, the cosine and sine of the random angle, and the `Math.hypot` distance are all inputs. Coordinates, velocities, life, decay and size are exact `real`s.

## Model

| member | source | states |
|---|---|---|
| Cursor.SpawnCount | components/CustomCursor.tsx:45 | For any distance ≥ 0, a move spawns between 1 and 5 sparks. The count is 5 exactly when the distance is at least 8 px. Below that it is one more than the whole number of 2 px steps travelled. |
| Cursor.PaletteIndex | components/CustomCursor.tsx:58 | `floor(r * colors.length)` for a draw r in [0, 1) is a valid index into the four-colour palette. |
| Cursor.Spawn | components/CustomCursor.tsx:48-59 | A new spark sits at the pointer (x, y) with life 1.0. Its decay is in [0.02, 0.05), its size in [1, 3), and its colour is a palette entry. Its velocity, less a tenth of the pointer displacement, is a radial burst whose speed lies in [1, 3). |
| Cursor.SpawnBatch | components/CustomCursor.tsx:47-61 | The counted loop pushes one well-formed spark per draw, in draw order. |
| Cursor.Burst | components/CustomCursor.tsx:43-61 | A move under 2 px whose trickle draw exceeds 0.1 adds nothing. Otherwise the move adds exactly `SpawnCount(dist)` sparks, the i-th built from the i-th draw. |
| Cursor.Advance | components/CustomCursor.tsx:74-76 | One tick of one spark. Velocity, decay, size and colour are unchanged, and a positive decay strictly lowers life. `AdvanceChangesOnlyMotion` gives the full field-by-field effect. |
| Cursor.Step | components/CustomCursor.tsx:70-82 | One frame over the store: the advanced sparks that are still alive. It never grows the store, and every spark it keeps has life > 0. `StepMembership`, `StepKeepsOrder` and `StepAppend` characterise it exactly. |
| Cursor.StepN | components/CustomCursor.tsx:70-82 | n frames with no pointer moves in between. The store never grows. `StepNLifeBound` and `SparksGoneAfterFiftyFrames` bound what remains. |
| Cursor.AdvanceChangesOnlyMotion | components/CustomCursor.tsx:74-76 | A tick adds (vx, vy) to the position and subtracts decay from life. Velocity, decay, size and colour stay the same. For a well-formed spark, life strictly drops. |
| Cursor.StepMembership | components/CustomCursor.tsx:70-82 | A particle is in the store after a frame if and only if it is alive and is the advanced form of a particle that was there before. |
| Cursor.StepKeepsOrder | components/CustomCursor.tsx:78-81 | After a frame, every particle has life > 0. Every old particle whose advanced life is positive is still present. The survivors form an order-preserving subsequence of the advanced store. |
| Cursor.StepAppend | components/CustomCursor.tsx:70-82 | A frame over a store of older and newer sparks equals the frame over each part, concatenated. The survivors of older sparks come first. |
| Cursor.StepPreservesWellFormed | components/CustomCursor.tsx:74-81 | A frame keeps the store invariant: life in (0, 1], decay, size and colour in their spawn ranges. |
| Cursor.StepNLifeBound | components/CustomCursor.tsx:76 | After n frames, every remaining spark has life at most 1 − 0.02·n. |
| Cursor.SparksGoneAfterFiftyFrames | components/CustomCursor.tsx:56-57 | Life starts at most 1.0 and decay is at least 0.02, so after 50 or more frames without moves the store is empty. |
| Cursor.ParticleTrail.constructor | components/CustomCursor.tsx:5-7 | On mount, the store is empty and the last-pointer and cursor references are (0, 0). |
| Cursor.ParticleTrail.AddParticles | components/CustomCursor.tsx:34-62 | The last pointer position becomes (x, y) even when nothing spawns. The new store is the old store with exactly `Burst(...)` appended, so existing entries are untouched. The store invariant is kept. |
| Cursor.ParticleTrail.HandleMouseMove | components/CustomCursor.tsx:25-28 | Records the cursor position, then performs `AddParticles`. |
| Cursor.ParticleTrail.Render | components/CustomCursor.tsx:70-82 | The in-place splice-and-decrement loop leaves exactly `Filter(Alive, Map(Advance, old store))`. The ghost record of the particle read at the loop index on each pass equals the old store, so each old particle is picked up once, in order. The store invariant is kept. |
| Gallery.Filtered | components/TemplateGallery.tsx:59-61 | `filteredTemplates`: never more than the six table entries, and for any category other than "All" only templates of that category. `FilterAllIsTable`, `FilteredMembership` and `FilteredIsSubsequence` give the exact result. |
| Gallery.ShowsEmptyState | components/TemplateGallery.tsx:176 | The empty-state panel shows when the filtered list is empty, which never happens for "All". `EmptyStateOnlyOffList` gives exactly when it shows. |
| Gallery.FilterAllIsTable | components/TemplateGallery.tsx:59-60 | "All" yields the full six-entry table, unchanged. |
| Gallery.DefaultSelectionShowsAll | components/TemplateGallery.tsx:57 | An omitted `selectedCategory` defaults to "All" and shows the whole table. |
| Gallery.FilteredMembership | components/TemplateGallery.tsx:61 | For any category other than "All", a template is shown if and only if it is in the table and has that category. |
| Gallery.FilteredIsSubsequence | components/TemplateGallery.tsx:59-61 | Every result is an order-preserving subsequence of the table, so it has at most six entries. |
| Gallery.BusinessShowsTwo | components/TemplateGallery.tsx:10-61 | "Business" yields Venture SaaS and then Horizon Estate. |
| Gallery.TitlesDistinct | components/TemplateGallery.tsx:10-53 | The six titles are pairwise distinct, so they are valid list keys. |
| Gallery.EmptyStateOnlyOffList | components/TemplateGallery.tsx:176 | The empty-state panel shows if and only if the category is not one of the filter buttons. Every button other than "All" matches at least one template. |
| AiModal.Trim | components/AiModal.tsx:24 | `prompt.trim()`: leading whitespace is removed, then trailing whitespace. The result is never longer than the prompt. `TrimIsInnerSlice` characterises it exactly. |
| AiModal.IsBlank | components/AiModal.tsx:24 | The guard `!prompt.trim()`: the trimmed prompt is empty. The empty prompt is blank. `BlankIffAllWhitespace` says exactly which prompts are blank. |
| AiModal.TrimIsInnerSlice | components/AiModal.tsx:24 | `trim()` returns a contiguous slice of the prompt. Everything cut off before and after the slice is whitespace, and the slice neither starts nor ends with whitespace. |
| AiModal.BlankIffAllWhitespace | components/AiModal.tsx:24 | A prompt fails the guard if and only if every character is whitespace. The empty prompt counts. |
| AiModal.Modal.constructor | components/AiModal.tsx:11-13 | The initial state is step input, an empty prompt, progress 0 and no timers. |
| AiModal.Modal.OpenAsWritten | components/AiModal.tsx:15-21 | The open effect as the source has it. It resets step, prompt and progress only when the modal goes from closed to open. Running intervals and scheduled timeouts are left as they are. |
| AiModal.Modal.Open | components/AiModal.tsx:15-21 | The corrected open effect (see Findings). It also cancels the stale interval and timeout. Opening a closed modal always gives a consistent, empty input step. |
| AiModal.Modal.Close | components/AiModal.tsx:49 | `onClose` only hides the modal. The step, the prompt and the timers are left as they are. |
| AiModal.Modal.SetPrompt | components/AiModal.tsx:84-89 | The textarea replaces the prompt. It exists only on the input step of an open modal. |
| AiModal.Modal.Generate | components/AiModal.tsx:23-28 | A blank prompt changes nothing. Otherwise the step moves from input to generating and a new interval starts at 0. The step never moves backwards. |
| AiModal.Modal.Tick | components/AiModal.tsx:29-36 | One interval firing adds inc ∈ [0, 15). If the sum reaches 100, progress becomes exactly 100, the interval is removed and a success timeout is scheduled. Otherwise the sum becomes the progress. Under `Consistent`, progress never decreases and never exceeds 100. |
| AiModal.Modal.Finish | components/AiModal.tsx:34 | A scheduled timeout sets the step to success. From a consistent state, this happens only after generating, with progress exactly 100. |
| AiModal.StaleIntervalScenario | components/AiModal.tsx:15-37 | Under the source's open effect: generate with a non-blank prompt, close, then reopen. The modal shows the input step, yet the old interval and timeout drive it to success with a blank prompt. |
| AiModal.CancelledIntervalScenario | components/AiModal.tsx:15-37 | The same run under the corrected open effect leaves the reopened input step with no live timer. |

## Findings

| source | as written | input that shows it | evidently intended | confidence | as-written member | corrected member |
|---|---|---|---|---|---|---|
| components/AiModal.tsx:15-21 | The reset on open sets step, prompt and progress, but does not clear the interval started by `handleGenerate` or the success timeout that interval schedules. The modal stays mounted while closed, so both keep firing. | Open, type a non-blank prompt, press Generate, close the modal before progress reaches 100, then reopen it before the old interval's success timeout fires. The reopened wizard shows the input step with an empty prompt. The old interval keeps firing, and its timeout sets the step to success without a new generation. | Reopening gives a fresh input step. Success is reached only through generating, with a non-blank prompt and progress 100. | medium, not executed | AiModal.Modal.OpenAsWritten, AiModal.StaleIntervalScenario | AiModal.Modal.Open, AiModal.CancelledIntervalScenario |

`Modal.Open` and every other transition preserve `Modal.Consistent`. This predicate says:

- At most one generation is in flight, and only while generating.
- Progress is 0 on the input step.
- Progress is exactly 100 on the success step.
- The prompt is non-blank on any step after input.

`OpenAsWritten` does not preserve it, as `StaleIntervalScenario` shows.

In the application as shown, the defect is latent. `App.tsx:11` starts the modal closed, and the only callback passed to it closes it (`App.tsx:49`). `Hero` takes no `onOpenAi` prop, so nothing opens the modal. The stale run becomes reachable as soon as some caller passes `isOpen = true`.

## Left out

- Canvas drawing is not modelled: clearing, the `lighter` composite mode, the tail line, the head dot and the line widths (components/CustomCursor.tsx:65-68, 84-104). It produces pixels and no state.
- Event wiring is not modelled: resize handling, listener registration and removal, `requestAnimationFrame` re-arming and its cancellation on unmount (components/CustomCursor.tsx:11-22, 29, 105-114). This is browser I/O and scheduling. A frame is one call of `Render`.
- `Math.random`, `Math.cos`, `Math.sin` and `Math.hypot` become inputs:
  - `AddParticles` takes the distance, with `dist ≥ 0` and `dist² = dx² + dy²`.
  - It takes the cosine and sine of each random angle, with `cos² + sin² = 1`.
  - It takes the raw draws in [0, 1).
- IEEE floating-point rounding is not modelled. All arithmetic is exact over `real`.
- Particles are values in a `seq`, not shared mutable objects. In the source, each record is referenced only from the particle array, so in-place field updates and value replacement are observably the same.
- `setInterval` and `setTimeout` timing (200 ms and 400 ms) is not modelled. Only the order of callback effects is: `Tick` is one interval firing and `Finish` is one timeout firing. Any interleaving the methods' preconditions allow is covered, including interleavings that no timing could produce.
- `Math.round(progress)` and the progress bar width are not modelled (components/AiModal.tsx:112, 121). They are display only.
- The modal's framer-motion animations, the gallery's card rendering and all styling are not modelled.
- components/UiMockup.tsx, BentoGrid.tsx, Hero.tsx, Navbar.tsx, Footer.tsx, App.tsx and components/App.tsx are not part of this model. They are presentation and composition only.
- The category buttons' `onSelectCategory` callback and the empty state's "Clear Filters" button are not modelled. They only hand a category back to the parent. The parent's state is not part of this model.
