# OpenPilot wordmark and dialogs, modelled in Dafny

This project models the core of OpenPilot's terminal front end and proves properties of it.

- **The wordmark layout engine** (`internal/tui/components/logo/logo.go`). `decideLayout` turns the available width, the word's width and its letter count into a layout decision: compact or not, which letter to stretch, gradient or not, `╱` or `/` for the diagonal fields, and the field widths. The glyph table and `renderWord` join the block letters of OPENPILOT side by side, with blank columns between them. `padLines` and `clampLines` pad and cut a block line by line. `Render` picks the wide framed logo, the stacked OPEN/PILOT logo, the OP abbreviation or the plain initials. `RenderChat` always tries the stacked form between the two fields.
- **The provider dialog** (`internal/tui/components/dialogs/models/providers.go`). It switches between a list of providers and an API-key input for the chosen provider.
- **The OpenRouter API-key dialog** (`internal/tui/components/dialogs/apikey.go`). It checks the key's length and sets a status line.
- **The secret-header redaction** of the `headers` command (`internal/cmd/headers.go`).
- **The npm installer's choice of release assets** (`npm/bin/postinstall.js`). This covers the platform and architecture tables, the ordered, de-duplicated archive names and their URLs, and the package-version fallback.

Text is modelled as a block of lines (`seq<string>`). A Go string stands for its `strings.Split(s, "\n")`. Joining strings with `"\n"` concatenates their lines, and printing rows with `fmt.Fprintln` gives the rows plus one final empty line. Every glyph character is one column wide. A line's display width is therefore its length, and `lipgloss.Width` is the longest line.

Three library behaviours are stated as assumptions rather than reimplemented:

- Colouring (`Foreground`, the gradient) leaves the text unchanged.
- `ansi.Truncate(s, n, tail)` keeps a prefix and appends the tail (`Text.TruncateTail`).
- `lipgloss.JoinHorizontal(lipgloss.Top, …)` aligns blocks at the top. It pads each block to the tallest height with empty lines and each line to its own block's width (`Glyphs.JoinHorizontal`).

Go's `/` and `%` truncate toward zero, so they are written out in `GoInt` rather than using Dafny's Euclidean operators. Go's `len` of a string counts UTF-8 bytes (`ApiKey.Utf8Length`). `strings.ToLower` is modelled on the code points that lower-case to an ASCII letter (`Headers.Lower`).

Where the glyph functions take a `stretch` flag, the code ignores it. The model does the same, so the stretched word is the plain one (`Glyphs.WordIgnoresStretch`). `renderWord` trims the joined block with `strings.TrimSpace` as one string, not row by row. `Text.TrimSpace` does that on lines and is proved equal to `strings.TrimSpace` on the joined text (`Text.TrimSpaceAgrees`). Only the first non-blank line loses leading whitespace, and only the last non-blank line loses trailing whitespace. Every glyph's top row starts with a visible character and its second row is not blank. So the joined top row, which spans every glyph and spacer, is never trimmed, and a lone glyph only loses its trailing blank rows. Every word therefore keeps its full width (`Glyphs.WordWidth`).

## Model

| member | source | states |
|---|---|---|
| Layout.DecideLayout | internal/tui/components/logo/logo.go:490-531 | left field always `baseLeft`; unconstrained: not compact, gradient, `╱`, default right field; constrained: compact iff width < word + baseLeft + 3 (then right field 0), otherwise right field ≥ 1 and left + gap + word + gap + right = width; no gradient iff width < word + baseLeft + 6; `/` iff width < 50; a stretch index names a letter, and none when compact or slack < 12 |
| Layout.UnconstrainedStretch | internal/tui/components/logo/logo.go:504-509 | with no width the stretch index is (wordWidth·31 + letterCount·17) mod letterCount, or none for no letters |
| Layout.ConstrainedStretch | internal/tui/components/logo/logo.go:522-526 | under a width the stretch index is (width + wordWidth·7 + letterCount·13) mod letterCount exactly when width ≥ word + baseLeft + 15 and there are letters, none otherwise |
| Layout.RegulateForAvailableWidth | internal/tui/components/logo/logo.go:210-237 | the compact flag is forced exactly when 0 < width < brandWidth + 8, and otherwise kept |
| Text.Width | internal/tui/components/logo/logo.go:49 | the block's width bounds every line, and an empty block is 0 wide |
| Text.TruncateTail | internal/tui/components/logo/logo.go:73 | a string that fits is kept; otherwise it becomes exactly `n` columns, a prefix followed by the tail, or empty when the tail alone does not fit |
| Text.TrimSpace | internal/tui/components/logo/logo.go:271 | `strings.TrimSpace` on the lines: never more lines than before, and a non-empty block keeps at least one line, as `strings.Split` of a trimmed string always does |
| Text.TrimSpaceAgrees | internal/tui/components/logo/logo.go:271-273 | trimming the lines is `strings.TrimSpace` of the joined text |
| Text.TrimSpaceKeepsSolidFirst | internal/tui/components/logo/logo.go:271-273 | a first line that starts and ends visibly survives the trim unchanged |
| Text.TrimSpaceNarrows | internal/tui/components/logo/logo.go:271-273 | trimming never widens a block |
| Text.TrimSpaceKeepsOpenFirst | internal/tui/components/logo/logo.go:271-273 | a first line that starts visibly survives the trim unchanged whenever some later line is not blank |
| Text.TrimSpaceBlankTail | internal/tui/components/logo/logo.go:271-273 | a block starting visibly, whose line k ends visibly and has only blank lines below, loses just those blank lines |
| Text.TrimSpaceKeepsWidth | internal/tui/components/logo/logo.go:271-273 | a block whose solid first line is its widest keeps its width through the trim |
| LineOps.PadLines | internal/tui/components/logo/logo.go:452-464 | identity for width ≤ 0; otherwise the same number of lines, each line its original text followed only by spaces, max(width, original) columns wide |
| LineOps.ClampedLines | internal/tui/components/logo/logo.go:467-476 | the clamped block has as many lines as before and fits the width when one is given |
| LineOps.ClampLines | internal/tui/components/logo/logo.go:467-476 | identity for width ≤ 0; otherwise the same number of lines, each a prefix of the original at most `width` wide, and lines that fit unchanged |
| LineOps.PadLinesIdempotent | internal/tui/components/logo/logo.go:452-464 | padding twice to the same width is padding once |
| LineOps.PadLinesAbsorb | internal/tui/components/logo/logo.go:452-464 | padding to a width and then to a larger one is padding to the larger one |
| LineOps.PaddedWidth | internal/tui/components/logo/logo.go:456-463 | a padded non-empty block is max(width, original width) wide |
| LineOps.PaddedWide | internal/tui/components/logo/logo.go:458-461 | lines already that wide are left alone |
| LineOps.ClampLinesIdempotent | internal/tui/components/logo/logo.go:467-476 | clamping twice is clamping once |
| LineOps.ClampFits | internal/tui/components/logo/logo.go:471-474 | a block that fits is unchanged by the clamp |
| LineOps.ClampedWidth | internal/tui/components/logo/logo.go:467-476 | after clamping to a positive width the block is at most that wide |
| Glyphs.Glyph | internal/tui/components/logo/logo.go:276-345 | every glyph has at least four lines |
| Glyphs.GlyphWidthIs | internal/tui/components/logo/logo.go:276-345 | the glyph widths: O, P and T 5, E, N and L 4, I 3 |
| Glyphs.StretchIgnored | internal/tui/components/logo/logo.go:277-345 | the stretched glyph is the plain glyph |
| Glyphs.Intersperse | internal/tui/components/logo/logo.go:267-270 | 2n − 1 blocks for n > 0: block i at position 2i and the spacer at every odd position, so exactly one spacer between every two neighbours |
| Glyphs.JoinRowLength | internal/tui/components/logo/logo.go:271-273 | every row of the horizontal join is as wide as the blocks together |
| Glyphs.JoinedTrimmedWidth | internal/tui/components/logo/logo.go:271-273 | several blocks, the first of which opens its top row visibly and has a non-blank second row, keep their combined width when joined and trimmed |
| Glyphs.GlyphTrimmed | internal/tui/components/logo/logo.go:271-345 | trimming a lone glyph leaves its three drawn rows and drops only the blank rows below them |
| Glyphs.Word | internal/tui/components/logo/logo.go:255-274 | the word `renderWord` returns is at most five columns per letter plus `spacing` columns between neighbours, since no glyph is wider than five |
| Glyphs.RenderWord | internal/tui/components/logo/logo.go:255-274 | the loop fills one glyph per letter, asking the one at `stretchIndex` to stretch; a negative spacing is treated as 0 |
| Glyphs.WordIgnoresStretch | internal/tui/components/logo/logo.go:255-345 | the stretch index never changes the rendered word |
| Glyphs.WordWidth | internal/tui/components/logo/logo.go:255-274 | every non-empty word is exactly as wide as its glyphs plus `spacing` columns between neighbours: the trim never shortens it |
| Glyphs.WordWidths | internal/tui/components/logo/logo.go:46-59 | with spacing 1: OPENPILOT 48 columns, OPEN 21, PILOT 26, OP 11, whatever the stretch index |
| Logo.ApplyGradient | internal/tui/components/logo/logo.go:61-68 | the per-line gradient loop yields the word's lines followed by one empty line |
| Logo.FieldColumn | internal/tui/components/logo/logo.go:179-194 | the field loop yields `h` copies of the row and a final empty line |
| Logo.DrawSides | internal/tui/components/logo/logo.go:179-202 | left field, gap, content, gap and right field joined, the right field width floored at 0, clamped when a width is given |
| Logo.DrawWord | internal/tui/components/logo/logo.go:57-76 | the stretched word, graded when the layout allows, under a meta row of the word's width; the version truncated to word width − 8 |
| Logo.DrawStacked | internal/tui/components/logo/logo.go:97-136 | meta row, OPEN and PILOT padded to the wider word, framed by two diagonal rows of that width, clamped when a width is given |
| Logo.DrawAbbreviated | internal/tui/components/logo/logo.go:137-176 | OP under its meta row between two diagonal rows, or plain "OP" when the word is wider than width − 2 |
| Logo.DrawCompact | internal/tui/components/logo/logo.go:83-177 | the stacked logo iff no width or the wider of OPEN and PILOT ≤ width − 2; the abbreviation otherwise |
| Logo.RenderSpec | internal/tui/components/logo/logo.go:37-203 | the logo `Render` draws fits the width, when one is given, in each of its variants |
| Logo.Render | internal/tui/components/logo/logo.go:37-203 | `Render` draws the specified logo: a compact decision forces compact mode, then wide, stacked or abbreviated as above |
| Logo.RemapStretch | internal/tui/components/logo/logo.go:376-388 | an index in [0,4) stretches that OPEN letter, one in [4,9) the PILOT letter index − 4, anything else nothing; never both |
| Logo.DrawChatContent | internal/tui/components/logo/logo.go:376-391 | the two stretch variables are set by the remap and the two words rendered with them |
| Logo.DrawChatStack | internal/tui/components/logo/logo.go:393-437 | meta row, OPEN, a blank line and PILOT, every line padded to the stack width |
| Logo.RenderChatSpec | internal/tui/components/logo/logo.go:355-449 | the chat logo fits the width, when one is given, in the fallback and in the stacked form |
| Logo.RenderChat | internal/tui/components/logo/logo.go:355-449 | `RenderChat` draws the specified chat logo: the compact `Render` when the layout is compact, else the stack between the fields, clamped to a given width |
| LogoShapes.MetaRowWidth | internal/tui/components/logo/logo.go:71-75 | the version is cut to fit and the meta row is exactly as wide as the word |
| LogoShapes.BrandWidths | internal/tui/components/logo/logo.go:46-59 | the word measured before the layout decision and the stretched word drawn after it are both 48 columns |
| LogoShapes.RenderFits | internal/tui/components/logo/logo.go:132-201 | with a positive width no line of any variant is wider |
| LogoShapes.WideFillsWidth | internal/tui/components/logo/logo.go:179-202 | not compact with no width or ≥ 57 columns: every line exactly the width (71 unconstrained) |
| LogoShapes.StackedShape | internal/tui/components/logo/logo.go:83-136 | compact or below 57 columns, with no width or ≥ 28: the framed stack, every line 26 columns, `/` frame below 50 |
| LogoShapes.AbbreviatedShape | internal/tui/components/logo/logo.go:137-176 | from 13 to 27 columns: OP between `/` rows, every line 11 columns |
| LogoShapes.InitialsShape | internal/tui/components/logo/logo.go:150-176 | below 13 columns: the plain initials under the bare brand label, clamped |
| LogoShapes.FourColumns | internal/tui/components/logo/logo.go:150-176 | at width 4 the logo is `//`, ` Sur`, `OP`, `//` and the final empty line |
| LogoShapes.RenderUnconstrainedStretch | internal/tui/components/logo/logo.go:48-58 | with no width the wide logo stretches letter 3 (N) |
| LogoShapes.ChatFallback | internal/tui/components/logo/logo.go:371-374 | below 35 columns the chat logo is the compact `Render` |
| LogoShapes.ChatUnconstrainedStretch | internal/tui/components/logo/logo.go:371-388 | with no width the chat logo stretches PILOT's second letter (I) and nothing in OPEN |
| LogoShapes.ChatFillsWidth | internal/tui/components/logo/logo.go:407-439 | with no width or ≥ 35 columns every chat line fills the width exactly (49 unconstrained) |
| LogoShapes.RenderChatFits | internal/tui/components/logo/logo.go:441-447 | with a positive width no chat line is wider |
| Providers.DisplayName | internal/tui/components/dialogs/models/providers.go:83-86 | a provider is listed under its name, or its ID when the name is empty |
| Providers.Items | internal/tui/components/dialogs/models/providers.go:80-93 | one item per provider, in order |
| Providers.ItemsDescribeProviders | internal/tui/components/dialogs/models/providers.go:82-93 | each item carries the display name, ID and provider; "✅ configured" and "Change API key..." iff configured, "Set API key..." iff not |
| Providers.ListHeight | internal/tui/components/dialogs/models/providers.go:97-107 | never more than max(6, items + 2) rows; once the window height is known, never more than wHeight/2 and exactly wHeight/2 when max(6, items + 2) exceeds it; at least six before it is |
| Providers.ListHeightBounds | internal/tui/components/dialogs/models/providers.go:97-107 | the list asks for max(6, items + 2) rows: exactly that with no window height or when it fits in half the window, exactly wHeight/2 otherwise |
| Providers.ListHeightBelowMinimum | internal/tui/components/dialogs/models/providers.go:101-107 | the cap can go below six: a window four rows high gives two |
| Providers.DialogPosition | internal/tui/components/dialogs/models/providers.go:260-265 | the position is (wHeight/4 − 2, wWidth/2 − width/2), Go division |
| Providers.DialogCentred | internal/tui/components/dialogs/models/providers.go:260-265 | the left and right margins differ by at most one column |
| Providers.AboveBelowInverse | internal/tui/components/dialogs/models/providers.go:167-172 | moving down then up, or up then down, returns to the same item |
| Providers.ProviderDialog.SelectedItem | internal/tui/components/dialogs/models/providers.go:145-148 | the list's selected item, present exactly when the index names an item |
| Providers.ProviderDialog.constructor | internal/tui/components/dialogs/models/providers.go:44-75 | a new dialog is 50 wide, in list mode, with no items and no selected provider |
| Providers.ProviderDialog.Init | internal/tui/components/dialogs/models/providers.go:77-111 | when the catalogue loads: one item per provider and a list (width − 2) × list height; otherwise nothing changes |
| Providers.ProviderDialog.WindowSize | internal/tui/components/dialogs/models/providers.go:115-120 | records the window and resizes the list to (width − 2, wHeight/4), the input and help to width − 2 |
| Providers.ProviderDialog.APIKeyStateChange | internal/tui/components/dialogs/models/providers.go:121-124 | the message goes to the key input |
| Providers.ProviderDialog.Select | internal/tui/components/dialogs/models/providers.go:127-153 | list mode: the selected item's provider becomes `selectedProvider` and API-key mode starts, or nothing with no selection; API-key mode: save for the selected provider, an error or close + info, no field changed; the "no provider selected" error is unreachable from a valid state |
| Providers.ProviderDialog.Close | internal/tui/components/dialogs/models/providers.go:154-164 | API-key mode: back to list mode with no provider and an empty input; list mode: close the dialog |
| Providers.ProviderDialog.Next | internal/tui/components/dialogs/models/providers.go:167-169 | the selection moves down, wrapping, in either mode |
| Providers.ProviderDialog.Previous | internal/tui/components/dialogs/models/providers.go:170-172 | the selection moves up, wrapping, in either mode |
| Providers.ProviderDialog.Forward | internal/tui/components/dialogs/models/providers.go:174-192 | other keys and pastes go to the key input in API-key mode and to the list otherwise |
| Providers.ProviderDialog.MoveCursor | internal/tui/components/dialogs/models/providers.go:248-254 | the cursor moves by row + 3 down and col + 2 right |
| ApiKey.ApiKeyDialog.constructor | internal/tui/components/dialogs/apikey.go:16-25 | the current key is ignored: empty input, empty status, 128-character limit, width 40 |
| ApiKey.ApiKeyDialog.Update | internal/tui/components/dialogs/apikey.go:31-62 | Enter sets the status from the key length and the load and save outcomes, attempting nothing for a short key; Esc sets "Cancelled." without forwarding; anything else keeps the status and goes to the input |
| ApiKey.EnterStatus | internal/tui/components/dialogs/apikey.go:36-53 | Enter leaves one of the four status lines, and "API key updated!" only for a long-enough key that loaded and saved |
| ApiKey.UpdatedIff | internal/tui/components/dialogs/apikey.go:36-53 | "API key updated!" iff the key is long enough and load and save succeed; each failure status exactly in its case |
| ApiKey.Utf8LengthBounds | internal/tui/components/dialogs/apikey.go:37 | a key's byte length is between its character count and four times it |
| ApiKey.LengthCheckByCharacters | internal/tui/components/dialogs/apikey.go:37 | ten characters always pass the byte-length check, two or fewer never do |
| ApiKey.AsciiLengthCheck | internal/tui/components/dialogs/apikey.go:37 | an ASCII key is too short exactly when it has fewer than ten characters |
| Headers.LowerString | internal/cmd/headers.go:41 | lower-casing keeps the length and lower-cases each code point whose lower case is an ASCII letter (A to Z, KELVIN SIGN, I WITH DOT ABOVE), keeping all others |
| Headers.IsSecret | internal/cmd/headers.go:41-42 | a secret header's name is 13, 9 or 7 characters long, like the three secret names |
| Headers.Redacted | internal/cmd/headers.go:39-47 | one provider's headers as shown: the same names, each value either "[REDACTED]" or the original |
| Headers.RedactedEntries | internal/cmd/headers.go:39-47 | the output has exactly the input's header names, spelled as given; secret values become "[REDACTED]", others are kept |
| Headers.RedactedIdempotent | internal/cmd/headers.go:39-48 | redacting a redacted map changes nothing |
| Headers.SecretIffSpelledAs | internal/cmd/headers.go:41-42 | a header is secret iff its name spells "authorization", "x-api-key" or "api-key" letter by letter in either case |
| Headers.SecretExamples | internal/cmd/headers.go:41-45 | "Authorization", "X-Api-Key", "API-KEY" are secret; "X-Request-Id" and a name with a trailing space are not |
| Headers.EveryProviderListed | internal/cmd/headers.go:38-49 | every provider ID gets an entry, an empty one when it has no extra headers |
| Headers.RedactHeaders | internal/cmd/headers.go:39-47 | the inner loop builds the redacted map of one provider |
| Headers.ListProviderHeaders | internal/cmd/headers.go:38-49 | the outer loop builds the redacted map of every provider |
| Postinstall.DetectTarget | npm/bin/postinstall.js:13-24 | a detected target always names a release platform and architecture; a failure reports the unsupported platform or architecture |
| Postinstall.DetectTargetFromTables | npm/bin/postinstall.js:13-24 | a target is found iff both names are in the tables, and it is then exactly the two table entries; an unmapped platform is reported first, then an unmapped architecture |
| Postinstall.DetectTargetExamples | npm/bin/postinstall.js:13-24 | win32/x64 is windows/x86_64, linux/amd64 linux/x86_64, darwin/arm64 darwin/arm64, linux/arm linux/arm, win32/ia32 windows/i386; freebsd and riscv are rejected |
| Postinstall.TitleCaseDiffers | npm/bin/postinstall.js:30 | the title-case spelling of every table OS name differs from the lower-case one |
| Postinstall.Variants | npm/bin/postinstall.js:35-38 | the insertion-ordered set holds the lower-case name, then the title-case name when different |
| Postinstall.PushPattern | npm/bin/postinstall.js:34-39 | one template appends its set of names, in insertion order |
| Postinstall.NamesUnfold | npm/bin/postinstall.js:41-49 | the names are the five templates' names in order: underscore .tar.gz, dash .tar.gz, underscore .tgz, underscore .zip, dash .zip |
| Postinstall.TenNames | npm/bin/postinstall.js:34-49 | for a table OS there are ten names; name k is template k/2 on the lower-case OS for even k, the title-case one for odd k |
| Postinstall.NamesDistinct | npm/bin/postinstall.js:34-49 | no name is tried twice |
| Postinstall.VersionPlacement | npm/bin/postinstall.js:42-49 | dash names never depend on the version; "latest" underscore names omit it; other underscore names carry it after `openpilot_` |
| Postinstall.Candidates | npm/bin/postinstall.js:51-54 | one candidate per name, in name order, each with that name's URL |
| Postinstall.CandidateAssets | npm/bin/postinstall.js:27-55 | the five `pushPattern` calls and the `.map` give the specified candidates |
| Postinstall.BaseTagLatest | npm/bin/postinstall.js:28 | the URL tag is "latest" exactly when "latest" was asked for |
| Postinstall.Url | npm/bin/postinstall.js:51-53 | the URL is the repository's release directory for the version (`latest/download` or `download/v<version>`), then "/" and the name |
| Postinstall.UrlShape | npm/bin/postinstall.js:51-53 | URLs use `releases/latest/download/` for "latest" and `releases/download/v<version>/` otherwise, and end with "/" and the name |
| Postinstall.StripV | npm/bin/postinstall.js:100 | a leading "v" is always removed, exactly one; a version without one is kept as it is |
| Postinstall.StripVOnce | npm/bin/postinstall.js:100 | "v1.2.3" becomes "1.2.3", "vv1" becomes "v1", and "1.2.3" is kept |
| Postinstall.RetryVersion | npm/bin/postinstall.js:97-103 | a retry version is only offered after "latest", is never empty, and is the package version with its leading "v" removed |
| Postinstall.RetryOnlyAfterLatest | npm/bin/postinstall.js:97-103 | a versioned retry happens only after "latest", and only when the package version is neither empty nor just "v"; it is the package version less its leading "v" when it has one, and the package version itself otherwise |

## Left out

- `SmallRender` is not modelled. It reads the global theme, and its only arithmetic is `width − titleWidth − 1`.
- Colours and ANSI escape sequences are not modelled: colouring leaves the text unchanged and all text is plain. So nothing is proved about never cutting an escape sequence in half.
- LineOps.ClampLines: the model cuts a plain prefix. The library's escape-sequence-aware truncation is assumed to do the same on the visible text.
- Display width is the character count. Wide characters and East Asian ambiguous widths are not modelled; every glyph character, "™" and "…" count as one column.
- Glyphs.JoinHorizontal is stated as an assumption of the library's behaviour (top aligned, each block padded to its own width and to the common height), not derived from its code.
- Logo.Render: `lipgloss.NewStyle().Render` of a multi-line word pads its lines to equal width. In every use its result is then padded by `padLines` to at least that width, so the model treats it as the identity (`LineOps.PadLineAbsorb`).
- Dialog rendering is not modelled: `View`, `style`, `Cursor`'s choice between the input's and the list's cursor, the spinner, help and key-map tables.
- The list widget's internals are reduced to its items, a selected index with wrap-around navigation, and its size. Filtering and the list's own key handling are represented only as "forwarded to the list".
- Providers.ProviderDialog.Forward: a key forwarded to the list leaves the model's selection where it was. The real list filters on typed keys, which can change the selected item; after a forwarded key the model's selection is that of the unfiltered list.
- The text input is reduced to its value. The value it holds after handling a forwarded message is a parameter, so its own editing and the 128-character limit are not enforced by the model.
- Loading, saving and listing configuration are not modelled. `config.Providers`, `config.Get`, `config.Load` and `SetProviderAPIKey` become parameters: the catalogue as an `Option`, the configured IDs as a set, success or failure as inputs.
- Providers.ProviderDialog.Select: the command values are tags. The order of `tea.Sequence` (close first, then the info message) is kept only as the single tag `CloseAndReportInfo`.
- Headers: the cobra wiring, the working-directory lookup, `config.Init`, the user-agent string and JSON printing are not modelled. The provider configuration is a map parameter, and Go's random map iteration order does not affect the result.
- The installer's I/O is not modelled: downloading, trying the candidates one by one, archive extraction through `spawnSync`, the `findBin` walk, and copy/chmod. The environment variables, platform, architecture and package version are parameters.
- `npm/bin/openpilot.js` (process spawning), `main.go` (profiling server and entry point), `cmd/logotest/main.go` (a demo driver) and `internal/llm/tools/ua.go` (a one-line format) are not part of this model.
- Concurrency: the engine is single-threaded and nothing in the model is concurrent.
- Headers.LowerString: `strings.ToLower` also lower-cases non-ASCII letters (for example 'Ä' and 'Σ'); the model keeps them as they are. No such code point lower-cases to an ASCII letter, so whether a header name is secret is decided the same way.
- Logo.DrawWord: the version string is assumed to be a single line. A version containing a line break would add rows to the meta row block, and the model does not capture that.
