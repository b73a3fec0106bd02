# Portfolio site: blog detail page and contact form, in Dafny

The site is almost entirely presentation. Two components hold real decisions,
and this project models those two and proves properties about them.

- **Blog detail page** (`src/components/BlogPost.tsx`). It looks up a post by
  the slug in the route. It then formats the post body line by line. Each line
  is classified by its leading characters, in this fixed order:
  - `# `, `## ` and `### ` become headings;
  - a code fence yields nothing;
  - `- ` becomes a list item;
  - a blank line becomes a break;
  - anything else becomes a paragraph.
- **Contact form** (`src/components/Contact.tsx`). The state is three text
  fields, an `isSubmitting` flag and a status banner (`idle`, `success` or
  `error`). Typing overwrites one field. Submitting does four things in turn:
  - it checks that no field is blank after trimming;
  - it checks that the form element and the three mail-service settings are present;
  - it makes one external send;
  - it schedules a timer that puts the banner back to `idle`.

Files:

- `wrappers.dfy` holds `Option`, the `undefined` of a failed lookup.
- `text.dfy` holds the JavaScript string operations the components call:
  `startsWith`, `replace` with a string pattern (first match only, the
  replacement inserted literally, which is exact for the `''` every call
  passes), `split` on one character, and `trim`. `trim` uses the ECMAScript
  whitespace and line-terminator set. Two helpers are not called by the
  components: `IndexOf` is the search that `replace` runs, and `Join` is the
  inverse of `split`, used only to state the split round-trips.
- `blog_post.dfy` holds the post record, the slug lookup, the line classifier
  (`Classify`), the formatter (`FormatContent`) and the rendered view
  (`Render`). It also holds the site's one stored post.
- `contact.dfy` has two layers. First, the transitions are pure functions on
  a `Form` value: `ChangeField`, `Decide`, `SubmitForm` and `FireTimer`. Second,
  the class `ContactForm` keeps one field per piece of React state. Its event
  methods `HandleChange`, `HandleSubmit` and `ResetStatus` are proved to make
  exactly those transitions.

Modelling choices:

- The external send is a boolean parameter `sendOk`. It is consulted only on
  the path that sends.
- Each configuration value is an `Option<string>`. A value counts as present
  when it is defined and not empty, which is JavaScript truthiness.
- The mounted form element is a boolean.
- The five-second reset timer is a counter `pendingResets` plus a `Timer`
  event that fires one scheduled reset.

Facts about the code worth knowing when reading the model:

- The status banner takes only the values `idle`, `success` and `error`.
  Submission in progress is the separate `isSubmitting` flag.
- The route parameter is named `id`, but it is compared against the post's
  `slug`.
- The one stored post has the body `"\n# Hello World\n    "`, which formats to
  a break, the heading and a break (`HelloWorldRenders`). A body that is only
  `# Hello World` formats to the single heading (`SingleHeadingBody`).

## Model

| member | source | states |
|---|---|---|
| `BlogPost.FindBySlug` | src/components/BlogPost.tsx:9 | The result is undefined exactly when no post has the slug. Otherwise it is a post with that slug, and no earlier post has it, so it is the first match. |
| `BlogPost.FindUniqueSlug` | src/components/BlogPost.tsx:9 | When slugs are unique and post `k` carries the slug, the lookup returns post `k`. |
| `BlogPost.Render` | src/components/BlogPost.tsx:8-25 | The view is the not-found fallback exactly when no post matches, and the fallback links back to `/blog`. Otherwise the view shows the post that the lookup returns, which is the first post in the table with that slug, with its body formatted. |
| `BlogPost.UnknownSlugNotFound` | src/components/BlogPost.tsx:11-25 | Any slug that no stored post carries renders the fallback with the `/blog` link. |
| `BlogPost.Classify` | src/components/BlogPost.tsx:29-47 | The classifier chain: heading, fence, list, blank and paragraph tests in source order. Its properties are the `Classify*` lemmas below. |
| `BlogPost.FormatContent` | src/components/BlogPost.tsx:27-49 | `formatContent`: split on `'\n'`, classify each line. Its properties are `FormatContentPerLine` and `FormatContentAround`. |
| `BlogPost.FormatLines` | src/components/BlogPost.tsx:28 | The output has one block per line, and block `i` is the classification of line `i`. |
| `BlogPost.FormatContentPerLine` | src/components/BlogPost.tsx:28 | The formatted body has exactly as many blocks as `split('\n')` gives lines, in the same order, each classified on its own. |
| `BlogPost.FormatContentAround` | src/components/BlogPost.tsx:28-48 | Formatting `a + "\n" + b` is formatting `a` followed by formatting `b`. So a line's block never depends on its neighbours. |
| `BlogPost.FormatJoinedLines` | src/components/BlogPost.tsx:28 | Lines without newlines, joined by newlines, format to one block per given line. |
| `BlogPost.MarkersExclusive` | src/components/BlogPost.tsx:29-42 | At most one of the `# `, `## `, `### `, fence and `- ` tests can hold for a line, so the order of the checks decides nothing between them. |
| `BlogPost.BlankHasNoMarker` | src/components/BlogPost.tsx:38-45 | A whitespace-only line starts with none of the markers. |
| `BlogPost.ClassifyHeading` | src/components/BlogPost.tsx:29-37 | A line is H1, H2 or H3 exactly when it starts with `# `, `## ` or `### `. The heading text is the line with 2, 3 or 4 leading characters dropped and the rest untouched. |
| `BlogPost.ClassifyFence` | src/components/BlogPost.tsx:38-40 | A line yields nothing exactly when it starts with a code fence. |
| `BlogPost.ClassifyListItem` | src/components/BlogPost.tsx:41-43 | A line is a list item exactly when it starts with `- `. The item text is the line after those two characters. |
| `BlogPost.ClassifyBlank` | src/components/BlogPost.tsx:44-46 | A line becomes a break exactly when it is empty or whitespace only. |
| `BlogPost.ClassifyParagraph` | src/components/BlogPost.tsx:47 | A line is a paragraph exactly when no marker test matches and it is not blank. The paragraph holds the line verbatim. |
| `BlogPost.HeadingBeforeListItem` | src/components/BlogPost.tsx:29-43 | `"# - x"` is the heading `"- x"`, so the heading test takes precedence over the list test. |
| `BlogPost.LaterMarkerKept` | src/components/BlogPost.tsx:32-33 | `"## a ## b"` is the H2 `"a ## b"`. Only the leading marker is removed. |
| `BlogPost.MarkerNeedsSpace` | src/components/BlogPost.tsx:29-47 | `"#Title"`, with no space after `#`, is a paragraph. |
| `BlogPost.MarkerMustLead` | src/components/BlogPost.tsx:29-47 | `"  # x"`, with leading spaces, is a paragraph. |
| `BlogPost.HelloContentLines` | src/data/blog.ts:18-20 | The stored body is the three lines `""`, `"# Hello World"` and `"    "` joined by newlines. |
| `BlogPost.HelloLinesFormat` | src/components/BlogPost.tsx:28-46 | Those three lines format to a break, the H1 `"Hello World"` and a break. |
| `BlogPost.HelloWorldRenders` | src/data/blog.ts:12-25 | The route `hello-world` renders the stored post with the body `[Br, H1("Hello World"), Br]`. |
| `BlogPost.SingleHeadingBody` | src/components/BlogPost.tsx:28-31 | A body that is only `# Hello World` formats to the single H1 `"Hello World"`. |
| `Text.IndexOf` | src/components/BlogPost.tsx:30 | The result is -1 exactly when the pattern does not occur from `from` on. Otherwise it is an occurrence, and no earlier position from `from` on is one. |
| `Text.ReplaceFirst` | src/components/BlogPost.tsx:30 | `replace` with a string pattern: the first occurrence found by `IndexOf` is swapped, and without one the string is unchanged. The same call is made at lines 33, 36 and 42. |
| `Text.ReplacePrefix` | src/components/BlogPost.tsx:30 | When the string starts with the pattern, `replace` swaps exactly that prefix and leaves the rest alone. |
| `Text.Split` | src/components/BlogPost.tsx:28 | `split` always yields at least one piece, and no piece contains the separator. |
| `Text.JoinSplit` | src/components/BlogPost.tsx:28 | Joining the pieces of a split with the separator gives back the original string. |
| `Text.SplitJoin` | src/components/BlogPost.tsx:28 | Splitting a join of separator-free pieces gives back the pieces. |
| `Text.SplitAround` | src/components/BlogPost.tsx:28 | Splitting `a + sep + b` is splitting `a` followed by splitting `b`. |
| `Text.SplitPiece` | src/components/BlogPost.tsx:28 | A string without the separator splits into itself alone. |
| `Text.TrimStart` | src/components/BlogPost.tsx:44 | The result is a suffix of the input. Everything dropped is whitespace, and the result does not start with whitespace. |
| `Text.TrimEnd` | src/components/Contact.tsx:44 | The result is a prefix of the input. Everything dropped is whitespace, and the result does not end with whitespace. |
| `Text.Trim` | src/components/BlogPost.tsx:44 | `trim()` as `TrimEnd` of `TrimStart`. The same call is made at Contact.tsx line 44. |
| `Text.TrimEmptyIffBlank` | src/components/BlogPost.tsx:44 | `trim()` gives `''` exactly when every character is whitespace. |
| `Contact.FormDataKey` | src/components/Contact.tsx:26-32 | The field-map lookup, with its fallback to the input name, always gives the input's own name. |
| `Contact.Assign` | src/components/Contact.tsx:34-37 | The spread update `{ ...prev, [key]: value }`: the key's property set to the value and every other property kept. Its properties are in `AssignFrame`. |
| `Contact.AssignFrame` | src/components/Contact.tsx:34-37 | The spread update sets the named property and leaves every other property as it was. |
| `Contact.ChangeField` | src/components/Contact.tsx:22-37 | The `handleChange` transition: the form data with the input's key assigned. |
| `Contact.ChangeSetsOnlyThatField` | src/components/Contact.tsx:22-38 | `handleChange` sets the field named by the input to the new value. Every other field, the status, the flag and the pending resets are unchanged. |
| `Contact.ChangeNamedInputs` | src/components/Contact.tsx:22-37 | The `name`, `email` and `message` inputs each overwrite their own field of the record. |
| `Contact.Blank` | src/components/Contact.tsx:44 | `!s.trim()`: the field trims to `''`. |
| `Contact.Filled` | src/components/Contact.tsx:44 | None of the three fields is blank. |
| `Contact.Present` | src/components/Contact.tsx:53 | JavaScript truthiness of one setting: defined and not the empty string. |
| `Contact.Configured` | src/components/Contact.tsx:53 | The form element is mounted and all three settings are truthy. |
| `Contact.Decide` | src/components/Contact.tsx:40-73 | The path `handleSubmit` takes: rejected, configuration missing, delivered or failed. |
| `Contact.Settle` | src/components/Contact.tsx:44-72 | The state writes of each path, including the `finally` block. |
| `Contact.SubmitForm` | src/components/Contact.tsx:40-73 | The `handleSubmit` transition: `Settle` applied to the path `Decide` chooses. |
| `Contact.SendAttemptedIff` | src/components/Contact.tsx:44-62 | The send is attempted exactly when all fields are filled and the configuration is present. It succeeds exactly when, in addition, the send reports success. |
| `Contact.WhitespaceFieldUnfilled` | src/components/Contact.tsx:44 | A field that is empty or whitespace only fails validation. |
| `Contact.SubmitRejectsBlank` | src/components/Contact.tsx:44-48 | With a blank field, the submit is rejected before any send. Only the status (set to error) and the scheduled reset change; the fields and `isSubmitting` are untouched. |
| `Contact.SubmitWithoutConfig` | src/components/Contact.tsx:50-71 | Filled fields but a missing form element or setting: no send happens. The status becomes error, the fields are kept and `isSubmitting` ends false. |
| `Contact.SubmitDelivered` | src/components/Contact.tsx:57-65 | A successful send sets the status to success and resets all three fields to `""`. |
| `Contact.SubmitFailed` | src/components/Contact.tsx:66-70 | A failed send sets the status to error and keeps the field values. `isSubmitting` ends false. |
| `Contact.SubmitSettles` | src/components/Contact.tsx:46-71 | Every submit schedules exactly one reset and leaves a non-idle status. One that passes validation ends with `isSubmitting` false. |
| `Contact.TimerOnlyResetsStatus` | src/components/Contact.tsx:71 | A reset firing sets the status to idle and changes nothing else, apart from consuming its own pending reset. |
| `Contact.FireTimer` | src/components/Contact.tsx:71 | The timeout callback: the status becomes idle and one pending reset is consumed. |
| `Contact.StepSettled` | src/components/Contact.tsx:20-73 | Every event keeps this invariant: `isSubmitting` is false between events, and a non-idle status always has a reset pending. |
| `Contact.RunSettled` | src/components/Contact.tsx:20-73 | Any sequence of events keeps that invariant. |
| `Contact.TimersClearBanner` | src/components/Contact.tsx:69-72 | From a settled state, once every pending reset has fired, the status is idle and the fields are as they were. |
| `Contact.ReachableBannerClears` | src/components/Contact.tsx:12-73 | Every state reachable from the initial one is settled, and its banner returns to idle once its pending resets fire. |
| `Contact.ContactForm.constructor` | src/components/Contact.tsx:13-20 | A new component has empty fields, is not submitting, shows idle and has no reset pending. |
| `Contact.ContactForm.HandleChange` | src/components/Contact.tsx:22-38 | The component's new state is the `handleChange` transition of its old state. |
| `Contact.ContactForm.HandleSubmit` | src/components/Contact.tsx:40-73 | The method returns the path taken. The new state is the `handleSubmit` transition of the old state, written step by step in the source's order. |
| `Contact.ContactForm.ResetStatus` | src/components/Contact.tsx:71 | A scheduled reset firing performs the timer transition: the status becomes idle and one pending reset is consumed; nothing else changes. |

## Left out

- Markup, style classes and animation settings in both components are presentation only.
- The other pages, the layout and its theme toggle, and the project and experience tables only map constant data to markup.
- `new Date(...).toLocaleDateString` is locale formatting done by the platform.
- `emailjs.sendForm` is a network call to a third-party service. It is the `sendOk` parameter. Its retries and delivery are outside the site.
- Real time is not modelled. Each `setTimeout` is one pending reset, fired by the `Timer` event in any order relative to other events.
- `Contact.ContactForm.HandleSubmit` runs as one atomic event. The window during the awaited send is not an observable state of the model. During that window `isSubmitting` is true and the button is disabled. Overlapping submissions are not modelled either.
- `Contact.FormDataKey`: inherited object properties are not modelled. A name such as `constructor` would look up a prototype member instead of falling back to the name.
- `console.error` and `e.preventDefault()` have no effect on the modelled state.
- React's state batching and re-rendering are not modelled. Each setter takes effect in program order.
- The `key={index}` values on rendered blocks are React bookkeeping and do not affect the output.
- `Text.ReplaceFirst`: the `$&`, `$$`, `` $` `` and `$'` replacement patterns are not expanded, because every call passes `''`.
- Strings are sequences of Unicode scalar values, not UTF-16 code units. Every marker and whitespace character involved is a single code unit, so the classification is unaffected.
