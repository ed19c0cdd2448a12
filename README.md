# Reginald Studies Man: the author editor and the favorite button, in Dafny

This project models the two stateful components of a small Next.js publishing app and proves properties about them.

**The author editor** (`src/components/AuthorEditor.tsx`). It covers:
- how a stored article row becomes form fields;
- the field edits, including a title edit that re-derives the slug;
- the settings controls, each of which replaces one setting;
- the payload a save sends: slug fallback, tags parsed from the comma-separated field, and the `published_at` rule;
- the choice between insert and update;
- what the save does to the form afterwards: message, saving flag, first-publish stamp and navigation.

**The favorite button** (`src/components/FavoriteButton.tsx`). It covers:
- the initial load from the two reads;
- the toggle, which is optimistic and never rolls back;
- the loading guard on the button.

`src/lib/types.ts` supplies the shape of the article settings: eight optional fields and three enumerations.

## Files and modules
- `types.dfy` (`Types`) holds:
  - `Option`, which stands for JavaScript `null`/`undefined`;
  - `Truthy`, JavaScript truthiness of an optional string, where `""` is falsy;
  - the status and enumeration types;
  - `ArticleSettings`.
- `js_string.dfy` (`JsString`) holds the string operations the editor calls: `trim` (the ECMAScript white-space set), `split` with a one-character separator, and `Array.prototype.join`, with their round trips.
- `editor_settings.dfy` (`EditorSettings`) holds:
  - the default settings;
  - the object spread `{ ...base, ...patch }` (as `Overlay`);
  - the one-field settings edits.
- `tags.dfy` (`Tags`) holds the tag pipeline `split(",").map(trim).filter(Boolean)` and the load-and-save round trip.
- `author_editor.dfy` (`AuthorEditor`) holds the form, the payload and the class `Editor`, whose fields are the component's state hooks.
- `favorite_button.dfy` (`FavoriteButton`) holds the tally, the ledger of favorite rows, and the class `Button`.

Operations that change state are class methods with field-granular `modifies` frames. Each one is specified by a pure function of the old state: `Loaded`, `Edited`, `BuildPayload`, `StampAfterSave`, `NavigationAfterSave` and `Flip`. The properties are proved about those functions.

The backend is modelled as parameters and results. The signed-in user, the rows read, the write's answer and the clock are parameters. The write sent is a result.

## Model

| member | source | states |
|---|---|---|
| EditorSettings.DefaultsResolved | src/components/AuthorEditor.tsx:64-72 | the initial settings set every field except pullQuote; the kicker is "Reginald Field Report" and the accent colour "#ff5f3c" |
| EditorSettings.Overlay | src/components/AuthorEditor.tsx:111-114 | every field present in the stored record wins; every absent field keeps the previous value |
| EditorSettings.OverlayNothing | src/components/AuthorEditor.tsx:113 | a missing settings record (`?? {}`) leaves the settings unchanged |
| EditorSettings.OverlayOntoDefaults | src/components/AuthorEditor.tsx:64-72 | overlaid on the defaults, any stored record resolves every defaulted field; the absent fields keep their default; pullQuote is exactly the stored one, since it has no default |
| EditorSettings.OverlayFull | src/components/AuthorEditor.tsx:111-114 | a stored record with all eight fields replaces the settings whole |
| EditorSettings.OverlayIdempotent | src/components/AuthorEditor.tsx:111-114 | overlaying the same record twice equals overlaying it once |
| EditorSettings.ApplySetting | src/components/AuthorEditor.tsx:320-424 | a control's change sets its own field to the new value and leaves the other seven unchanged |
| EditorSettings.EditsCommuteOrOverwrite | src/components/AuthorEditor.tsx:320-424 | changes to two different controls commute; of two changes to the same control, the later wins |
| EditorSettings.EditKeepsResolved | src/components/AuthorEditor.tsx:320-424 | no settings change unsets a defaulted field |
| JsString.Trim | src/components/AuthorEditor.tsx:157 | the result has no white space at either end and is no longer than the input; it is empty exactly when the input is all white space; a trimmed input is returned unchanged |
| JsString.TrimStartSuffix | src/components/AuthorEditor.tsx:157 | trimming the start keeps a suffix, drops only white space, and stops at a non-white-space character |
| JsString.TrimEndPrefix | src/components/AuthorEditor.tsx:157 | trimming the end keeps a prefix, drops only white space, and stops at a non-white-space character |
| JsString.TrimPadded | src/components/AuthorEditor.tsx:157 | trim removes exactly the white space around a non-empty trimmed string |
| JsString.Join | src/components/AuthorEditor.tsx:108 | `Array.prototype.join`: no parts join to ""; otherwise the result starts with the first part. `JoinLength`, `JoinSplit` and `SplitJoin` pin it down as the inverse of `split` |
| JsString.JoinLength | src/components/AuthorEditor.tsx:108 | a join is the parts' total length plus one separator per neighbouring pair |
| JsString.Split | src/components/AuthorEditor.tsx:156 | a split yields one more piece than there are separators, and no piece contains the separator |
| JsString.JoinSplit | src/components/AuthorEditor.tsx:156 | joining the pieces with the separator gives back the string |
| JsString.SplitJoin | src/components/AuthorEditor.tsx:108 | splitting a join of separator-free parts gives back the parts |
| JsString.SplitAfter | src/components/AuthorEditor.tsx:156 | the string before the first separator is the first piece; the rest splits independently |
| Tags.Clean | src/components/AuthorEditor.tsx:157-158 | every kept tag is non-empty and trimmed; the kept tags are the trimmed pieces in their original order, less exactly the blank ones |
| Tags.ParseTags | src/components/AuthorEditor.tsx:155-158 | every parsed tag is non-empty and trimmed; the tags keep the left-to-right order of the comma-separated entries; exactly the blank entries are dropped, so there are (number of commas + 1) tags less the blank entries |
| Tags.ShowTags | src/components/AuthorEditor.tsx:108 | the tag field for stored tags is their ", "-join: "" for no tags, otherwise starting with the first tag, two separator characters per neighbouring pair; `TagsRoundTrip` shows `ParseTags` undoes it |
| Tags.TagsRoundTrip | src/components/AuthorEditor.tsx:108 | for non-empty, trimmed, comma-free tags, joining with ", " on load and parsing on save gives back the same list |
| Tags.CommaTagSplitsOnResave | src/components/AuthorEditor.tsx:108 | a stored tag `a,b` comes back as the two tags `a` and `b` after a load and a save |
| AuthorEditor.Loaded | src/components/AuthorEditor.tsx:102-114 | each text field is the stored column, or "" when it is null; the tag field is the stored tags joined with ", ", or "" when null; the status is the stored one, or draft when null; the timestamp is the stored one; the stored settings are overlaid on the form's settings, and every stored setting wins |
| AuthorEditor.Edited | src/components/AuthorEditor.tsx:244-424 | each draft control's change sets its own field to the new value, and a title edit (through `handleSlug`) also sets the slug to the slugified title; a settings control sets its own setting and keeps the other seven; every field the control does not set is kept, and no edit touches publishedAt |
| AuthorEditor.SavedSlug | src/components/AuthorEditor.tsx:147 | the saved slug is the slug field when it is non-empty, and the slugified title otherwise |
| AuthorEditor.PayloadStamp | src/components/AuthorEditor.tsx:163-166 | the payload has a timestamp exactly when the status is published; that timestamp is the form's when the form has one (even ""), and the save-time clock otherwise |
| AuthorEditor.BuildPayload | src/components/AuthorEditor.tsx:147-167 | the payload copies the form's fields and the author's id; its slug follows the fallback; its tags are exactly the parsed tag field (non-empty, trimmed, in field order, at most one more than the commas); its published_at is null for a draft, the kept stamp, or `now` |
| AuthorEditor.RequestFor | src/components/AuthorEditor.tsx:169-171 | a save updates (by id) exactly when the article id is truthy, and inserts otherwise; both send the payload |
| AuthorEditor.StampAfterSave | src/components/AuthorEditor.tsx:173-179 | a failed save or a draft keeps publishedAt; a set publishedAt is never changed or cleared; a successful publish always leaves one; the only change is to the later clock reading, and only when the stamp was unset |
| AuthorEditor.NavigationAfterSave | src/components/AuthorEditor.tsx:176-183 | a save navigates exactly when the editor had no id, the write succeeded and the insert returned a non-empty id; it goes to that article's editor route |
| AuthorEditor.Editor.constructor | src/components/AuthorEditor.tsx:56-74 | a mounted editor has empty fields, draft status, no timestamp, the default settings, no message and is not saving |
| AuthorEditor.Editor.Load | src/components/AuthorEditor.tsx:89-118 | without a truthy id or a found row the form is unchanged; otherwise it becomes the loaded form |
| AuthorEditor.Editor.Change | src/components/AuthorEditor.tsx:244-424 | a control's change takes the form to its edited form |
| AuthorEditor.Editor.Save | src/components/AuthorEditor.tsx:130-187 | without an editor nothing happens; every started save ends with saving false; with no user nothing is written and the sign-in message is shown; otherwise it sends the payload built from the form, and the message, publishedAt and navigation follow the backend's answer |
| AuthorEditor.Editor.Settle | src/components/AuthorEditor.tsx:173-184 | after the write answers, the message is the backend's error text verbatim or "Draft saved."; publishedAt follows StampAfterSave; navigation follows NavigationAfterSave |
| AuthorEditor.SlugFollowsTitleEdit | src/components/AuthorEditor.tsx:244-248 | after a title edit, the saved slug is the slugified title, even over a slug typed by hand |
| AuthorEditor.LoadThenSave | src/components/AuthorEditor.tsx:102-167 | saving a just-loaded article (slug set, clean tags) writes back its title, slug, tags, status and timestamp, and keeps every stored setting |
| AuthorEditor.PublishedIffStamped | src/components/AuthorEditor.tsx:163-166 | a save sends a timestamp exactly when the article is published |
| AuthorEditor.FirstPublishStampMoves | src/components/AuthorEditor.tsx:165-178 | on first publish the write carries `now`, but the form keeps `later`; the next save from the same form writes `later`, so for an article that already had an id the stored timestamp moves whenever the two clock readings differ |
| AuthorEditor.RepublishReusesStamp | src/components/AuthorEditor.tsx:163-179 | a draft with a timestamp sends none and keeps its own; publishing it again sends that timestamp |
| AuthorEditor.EmptyIdInsertsWithoutNavigating | src/components/AuthorEditor.tsx:169-183 | an editor opened with an empty id inserts on save and never navigates |
| FavoriteButton.Loaded | src/components/FavoriteButton.tsx:25-37 | the count is the backend count, or 0 when there is none; the tally is favorited exactly when a viewer is signed in and their row exists |
| FavoriteButton.WriteFor | src/components/FavoriteButton.tsx:51-62 | a toggle deletes the viewer's row when favorited, and inserts one otherwise |
| FavoriteButton.Flip | src/components/FavoriteButton.tsx:51-64 | a toggle flips the flag; favoriting adds one to the count; unfavoriting subtracts one, clamped at 0; a non-negative count stays non-negative |
| FavoriteButton.DoubleToggleFromUnfavorited | src/components/FavoriteButton.tsx:51-64 | two toggles starting from (not favorited, n) return to (not favorited, n) |
| FavoriteButton.DoubleToggleFromFavorited | src/components/FavoriteButton.tsx:51-64 | two toggles from (favorited, n) with n at least 1 return to (favorited, n) |
| FavoriteButton.ClampBreaksDoubleToggle | src/components/FavoriteButton.tsx:58 | from (favorited, 0), two toggles give (favorited, 1) because of the clamp at zero |
| FavoriteButton.Apply | src/components/FavoriteButton.tsx:52-62 | an insert adds the user's row to the favorites table; a delete removes it |
| FavoriteButton.LoadMirrorsLedger | src/components/FavoriteButton.tsx:20-37 | two reads of the same table load a tally that shows exactly that table to the viewer |
| FavoriteButton.AnonymousNeverFavorited | src/components/FavoriteButton.tsx:25-36 | an anonymous viewer is never shown as favorited |
| FavoriteButton.FlipMirrorsSuccessfulWrite | src/components/FavoriteButton.tsx:50-66 | when the write succeeds, the flipped tally shows the updated table |
| FavoriteButton.FailedWriteDiverges | src/components/FavoriteButton.tsx:50-66 | there is no rollback: when the write fails, the flipped tally no longer shows the unchanged table |
| FavoriteButton.Button.constructor | src/components/FavoriteButton.tsx:12-14 | a mounted button shows not favorited and a count of 0, and is loading (disabled) |
| FavoriteButton.Button.Load | src/components/FavoriteButton.tsx:35-37 | after the load the tally is the loaded tally, the count is non-negative and loading is over |
| FavoriteButton.Button.Press | src/components/FavoriteButton.tsx:43-50 | while loading the button is disabled and a click does nothing; an anonymous click only redirects to sign-in, and leaves the flag, count and loading as they were; otherwise loading starts and the write for the current flag is sent |
| FavoriteButton.Button.Settle | src/components/FavoriteButton.tsx:51-66 | whatever the write's outcome, the tally flips, loading ends, and the count stays non-negative |
| FavoriteButton.FavoriteThenUnfavorite | src/components/FavoriteButton.tsx:43-67 | a reader who favorites an article showing 4 sees (favorited, 5); after unfavoriting they see (not favorited, 4) |
| FavoriteButton.AnonymousClick | src/components/FavoriteButton.tsx:44-48 | an anonymous click on a loaded button sends nothing, leaves the tally as it was and redirects to sign-in |

### Where the behaviour is easy to misread
- **Title edits.** A title edit always re-derives the slug, so a slug typed by hand is overwritten by the next title edit (`handleSlug`, called from the title input).
- **Settings defaults.** `pullQuote` has no default. The default kicker is "Reginald Field Report".
- **The two clock readings.** The clock is read twice: once for the payload (line 165) and again after a successful first publish (line 178). The form therefore keeps a timestamp that differs from the one just written. For an article that already had an id, the next save updates the row and writes that timestamp over the stored one (`FirstPublishStampMoves`). A new article is different: after its insert the editor navigates to the new article's page, whose load restores the stored timestamp.
- **Empty timestamp.** `publishedAt ?? now` keeps an empty string, but `!publishedAt` treats `""` as unset.
- **Save message.** The message after a successful save is "Draft saved." even when the article was published.
- **Empty id.** An editor opened with an empty id inserts a new article but does not navigate to it. This is because `articleId ?? id` keeps the empty string.
- **Favorite loading.** The button is disabled while loading. The flag and count flip when the write answers, whatever the answer; nothing rolls them back.

## Left out
- The TipTap document is not modelled: `content_json`, `content_html`, `editor.getJSON`, `generateHTML`, `setContent`, and the toolbar commands, link and image prompts. These are foreign-library operations. `Editor.Save` takes whether the editor exists as the parameter `editorReady`.
- The backend is not modelled. Supabase reads, writes and `auth.getUser` appear only as parameters (the row read, the signed-in user, the counts) and results (the write sent).
- The slugify library's character mapping is not modelled. `slugify` is an uninterpreted function given to the editor.
- `new Date().toISOString()` is not modelled. Each reading is a string parameter: `now` for the payload and `later` for the stamp after the save.
- Browser and router effects are not performed. `window.location.href` and `router.push` are recorded in the fields `redirectedTo` and `navigatedTo`.
- Concurrency and async interleaving are not modelled:
  - Each handler of the editor is atomic.
  - The `Promise.all` of the favorite load is one step.
  - The favorite toggle is split into a click (`Press`) and the write's answer (`Settle`). This shows the loading guard, but the `getUser` wait before `setLoading(true)` is not modelled.
- Stored rows are taken as well-typed:
  - Settings keys outside the eight known ones are not modelled.
  - Explicit `null` values inside the stored settings JSON are not modelled.
  - Enumeration strings outside their type are not modelled. The code does not validate them.
- The reload after navigation is not modelled. After a first insert the editor page receives the new id and loads the article again, which replaces the form's timestamp with the stored one; the model records only the route navigated to.
- FavoriteButton.Button.Load: requires that no write is in flight, because the load effect runs at mount, before the button is enabled.
- The pages, the layout, the account panel and the auth forms are not part of this model. They are rendering and thin service calls.
