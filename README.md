# Internship report generator — a Dafny model of its document assembly

The system builds an internship report (`rapport de stage`) as a Word
document from one request payload. The payload holds the student, company
and internship fields, a three-level chapter outline, section flags, and
style, page and logo settings. All rendering goes through python-docx, which
this model treats as a black box. What is modelled is everything the
generator decides before it calls that library. The document is an
append-only `Container` of abstract blocks: headings, paragraphs of runs,
tables whose cells hold blocks, and page breaks. Fonts, sizes, colours,
alignment and spacing are carried as opaque tags.

The model is organised the way the program is:

- `schemas.dfy` holds the payload types and their defaults.
- `text.dfy`, `dates.dfy`, `colors.dfy` and `images.dfy` hold the derivation
  helpers:
  - number and text formatting;
  - the strict `YYYY-MM-DD` grammar, French dates and month durations;
  - `#rrggbb` parsing;
  - the 100-character image presence test and the data-URI rule.
- `document.dfy` holds the block model and the appendable container.
- `tablexml.dfy` holds the border and shading edits on a table's XML child
  list, as a class updated in place.
- `styles.dfy` holds the named paragraph styles.
- `headerfooter.dfy` holds the header and footer tables.
- `toc.dfy` holds the table of contents with its page counter.
- `sections.dfy` holds the chapter hints and the numbered chapters, plus the
  thanks, abstract and annexes sections.
- `coverparts.dfy`, `covers.dfy`, `plaincovers.dfy`, `framedcovers.dfy` and
  `columncovers.dfy` hold the twelve cover generators.
- `registry.dfy` holds the registry lookup. `datemarkers.dfy` holds the
  timeline cover's date markers.
- `report.dfy` holds the assembler.
- `legacy.dfy` holds the single-file generator's if/elif cover dispatch and
  its assembler.
- `editor.dfy`, `rows.dfy`, `lists.dfy` and `outline.dfy` hold the browser
  outline editor and its list editors.

Every generator is a method that appends to a `Container`. It is proved equal
to a specification function that gives the blocks it appends. The properties
are lemmas about those functions:

- the TOC entries and the body headings are the same strings;
- the page counter;
- the placeholders;
- the flag gating;
- the registry fallback;
- the editor's tree surgery.

`generator.py` is an older copy of the `app/generators` package. Its helpers,
`create_toc`, `get_chapter_hint` and its twelve covers are the package's
functions verbatim, so the package's members model both copies. Where the
copy differs, the legacy members model it separately and prove the outcome
equal:

- the cover is chosen by an if/elif chain;
- the section bodies are written out inside `generate_report`.

Notes on the code's behaviour:

- `format_date_fr` returns an unparsable non-empty date unchanged, not a
  placeholder.
- `remove_table_borders` is not idempotent: each call adds one more
  `tblBorders`.
- A header or footer set up twice keeps the first table, since only
  paragraphs are removed.
- The pro cover's footer run can be empty.

## Model

| member | source | states |
|---|---|---|
| Schemas.DefaultReportFields | app/models/schemas.py:68-114 | The empty payload selects `classique`, every identity/company/internship text is `""`, cover/thanks/toc/annexes are on and figures-list/abstract/glossary/gantt off, page number and student name are shown, and no logo is present. |
| Styles.DefaultStyleSheet | app/models/schemas.py:35-48 | Default styles: Times New Roman 12; heading 1 size 16 bold `#1a365d` = (26,54,93); heading 2 size 14 bold black; heading 3 size 12 italic `#333333`; with the spacings and indents the style step sets. |
| Styles.SetupDocumentStyles | app/generators/utils.py:199-243 | The style step fails exactly when one of the three heading colours does not parse; otherwise the body font and size are the configured ones, each heading carries the colour its setting parses to, and heading 3 is explicitly not bold (identical copy at generator.py:169-214). |
| Styles.ShortColourRaises | app/generators/utils.py:229 | A four-digit heading colour makes the style step raise. |
| Text.NatToStringRoundTrip | app/generators/utils.py:72 | The decimal text of a natural number reads back as that number. |
| Text.NatToStringInjective | app/generators/utils.py:187-192 | Different numbers get different texts, so positional labels never collide. |
| Text.LStrip | app/generators/utils.py:17 | `lstrip(c)`: a suffix of the input that does not start with `c`, everything removed being `c`. |
| Text.LStripIdempotent | app/generators/utils.py:106 | Stripping twice is stripping once. |
| Text.NatToStringDigits | app/generators/utils.py:187 | The decimal text of a number is non-empty, all digits, and has no leading zero. |
| Text.Lower | app/generators/sections/sections.py:75 | `str.lower()` over ASCII and the Latin-1 capitals: same length, no capital left in the result, and every character that is not a capital kept in place. |
| Text.LowerIdempotent | app/generators/sections/sections.py:75 | Lower-casing twice is lower-casing once. |
| Text.FirstWordSome | app/generators/covers/covers.py:1129 | `split()[0]`: the first maximal run of non-whitespace after the leading whitespace. |
| Text.FirstWordNone | app/generators/covers/covers.py:1129 | `split()` finds no word exactly when the text is all whitespace. |
| Text.TrimMeaning | static/app.js:193 | `trim()` removes exactly the leading and trailing whitespace. |
| Text.TrimEmpty | static/app.js:195 | A trimmed input is empty exactly when it was all whitespace. |
| Text.TrimIdempotent | static/app.js:193 | Trimming a trimmed text changes nothing. |
| Dates.ParseYmd | app/generators/utils.py:57 | `strptime(s, "%Y-%m-%d")`: only a valid calendar date (year at least 1, day within its month) is ever produced. |
| Dates.FormatDateFr | app/generators/utils.py:52-62 | `""` gives `"[Date]"`; a non-empty string that does not parse is returned unchanged; a parsed date gives `"{day} {mois[month-1]} {year}"`; the result is never empty (identical copy at generator.py:53-62). |
| Dates.CalculateDuration | app/generators/utils.py:65-74 | `"[durée]"` when either date is empty or does not parse; otherwise `"{(y2-y1)*12 + m2-m1} mois"`, possibly 0 or negative, `"1 mois"` included (identical copy at generator.py:65-74). |
| Dates.ParseIsoRoundTrip | app/generators/utils.py:57 | Every valid date written as zero-padded `YYYY-MM-DD` parses back to itself. |
| Dates.FormatIsoDate | app/generators/utils.py:57-60 | A form date is shown as the unpadded day, the French month name and the year. |
| Dates.DurationOfIsoDates | app/generators/utils.py:70-72 | For two form dates the duration is the month difference with the day of month ignored. |
| Dates.DurationIgnoresDays | app/generators/utils.py:72 | Two dates in the same month are `"0 mois"` apart whatever their days. |
| Dates.LenientSpellings | app/generators/utils.py:57 | `strptime` also accepts unpadded months and days and a space-padded day. |
| Dates.RefusedSpellings | app/generators/utils.py:57 | 29 February of a non-leap year, day 32 and year 0 do not parse. |
| Dates.InvalidDateShownVerbatim | app/generators/utils.py:54-62 | `"15/01/2024"` is shown unchanged, `""` becomes `"[Date]"`, and a missing end date makes the duration `"[durée]"`. |
| Colors.LStripHashes | app/generators/utils.py:17 | `lstrip('#')` removes every leading `#` and nothing else. |
| Colors.ParseHexSliceIsInt | app/generators/utils.py:18 | On a slice of at most two characters the model of `int(_, 16)` (the blanks `int()` skips, a sign, ASCII hex digits) reads the integer Python reads from such text. |
| Colors.SeparatorNotSkipped | app/generators/utils.py:18 | The separators U+001C..U+001F, whitespace to `str.isspace()`, are not skipped by `int()`: a colour `"\x1c1\x1c1\x1c1"` does not parse. |
| Text.IntSpaceIsPySpace | app/generators/utils.py:18 | The blanks `int()` skips are the `str.isspace()` characters other than U+001C..U+001F. |
| Colors.HexToRgbReadsThreePairs | app/generators/utils.py:15-18 | `hex_to_rgb`: after any number of `#`, six hex digits in either case give the three pairs' values, and anything after them is ignored (identical copy at generator.py:14-16). |
| Colors.HexToRgbOfStripped | app/generators/utils.py:17-18 | The colour is decided by the three slices of the stripped text alone. |
| Colors.HexToRgbRoundTrip | app/generators/utils.py:15-18 | Writing any byte triple as `#rrggbb` and parsing it gives the triple back. |
| Colors.DefaultTitle1Colour | app/models/schemas.py:42 | `#1a365d` parses to (26, 54, 93). |
| Colors.DefaultTitle2Colour | app/models/schemas.py:45 | `#000000` parses to black. |
| Colors.DefaultTitle3Colour | app/models/schemas.py:48 | `#333333` parses to (51, 51, 51). |
| Colors.HexToRgbFiveDigits | app/generators/utils.py:18 | `#12345` parses, its last slice being the single digit 5. |
| Colors.HexToRgbFourDigits | app/generators/utils.py:18 | `#1234` fails: the third slice is empty. |
| Colors.HexToRgbNegative | app/generators/utils.py:18 | `-1-1-1` fails: the components are negative. |
| Images.UpToComma | app/generators/utils.py:26 | The first comma-separated field of a text. |
| Images.DataUriPayload | app/generators/utils.py:25-26 | For `header,payload[,rest]` the payload decoded is the second comma field. |
| Images.PlainPayload | app/generators/utils.py:25-27 | Text without a comma is decoded as it is. |
| Images.DecodeBase64Image | app/generators/utils.py:21-49 | There is no image exactly when the string is empty or its payload does not decode as base64. |
| Images.RawBytesFallback | app/generators/utils.py:47-49 | When Pillow fails, the raw decoded bytes are used, and embedded if the library accepts them. |
| Images.PictureRuns | app/generators/utils.py:276-282 | A picture attempt leaves at most one run: none when decoding fails, a bare run when `add_picture` rejects the bytes, else the picture. |
| Images.ShortImageIgnored | app/generators/covers/covers.py:22-24 | An absent image or one of at most 100 characters is not present and gives no picture run. |
| TableXml.FirstTblPr | app/generators/utils.py:114 | `find('w:tblPr')`: the index of the first `tblPr` child, every earlier child not one, or none at all. |
| TableXml.TableElement.FindTblPr | app/generators/utils.py:114 | The child-list search returns the first `tblPr`. |
| TableXml.TableElement.AppendBorders | app/generators/utils.py:113-123 | Reuses the first `tblPr` or inserts a new one at position 0, then appends one `tblBorders` group to it. |
| TableXml.TableElement.RemoveTableBorders | app/generators/utils.py:111-123 | Appends a group of six `nil` borders: top, left, bottom, right, insideH, insideV (identical copy at generator.py:335-348). |
| TableXml.TableElement.SetTableBorder | app/generators/utils.py:311-331 | Appends four `single` borders of the given size and `#`-stripped colour, then `nil` insideH and insideV. |
| TableXml.TableElement.SetTableBorderTop | app/generators/utils.py:333-347 | Appends a group holding only a `single` top border. |
| TableXml.AppendBordersEffect | app/generators/utils.py:113-123 | Only the first `tblPr` changes, gaining the group at its end; a table without one gets a new `tblPr` in front; the group count goes up by one. |
| TableXml.RemoveTableBordersNotIdempotent | app/generators/utils.py:118-123 | Two calls add two border groups, so the second call changes the table. |
| TableXml.RemoveBordersOfNewTable | app/generators/utils.py:111-123 | On a new table the `nil` group lands in the existing `tblPr` after `tblW` and `tblLook`. |
| TableXml.SetCellShading | app/generators/utils.py:104-108 | Appends one fill with the `#`-stripped colour to the cell's properties; the cell's blocks are unchanged. |
| TableXml.ShadingStripsOnce | app/generators/utils.py:106 | A colour with or without one leading `#` fills the same. |
| Document.Container.Add | app/generators/utils.py:128 | Appending one block adds exactly that block at the end. |
| Document.Container.AddAll | app/generators/utils.py:128 | Appending blocks keeps the old ones in front. |
| HeaderFooter.WithoutParagraphs | app/generators/utils.py:250-253 | Removing the paragraphs keeps only non-paragraph blocks, none longer than before. |
| HeaderFooter.Section.SetupHeaderWithLogos | app/generators/utils.py:246-299 | The header's paragraphs are removed and the 3-cell logo table appended; footer, page and first-page flag are unchanged. |
| HeaderFooter.Section.SetupFooterWithPageNumber | app/generators/utils.py:349-401 | The footer's paragraphs are removed and the 3-cell footer table appended; header, page and flag are unchanged. |
| HeaderFooter.FooterRunsConditional | app/generators/utils.py:376-401 | The company cell has runs iff the company name is non-empty; the centre cell holds the `- PAGE -` group iff the page number is shown; the student cell has runs iff the name is shown and `nom` is non-empty. |
| HeaderFooter.HeaderLogosConditional | app/generators/utils.py:268-299 | A logo that is not present leaves its header cell without runs; the centre cell is always empty. |
| HeaderFooter.SecondSetupKeepsFirstTable | app/generators/utils.py:250-256 | Setting up a header or footer twice keeps both tables, since only paragraphs are removed. |
| HeaderFooter.FreshSectionSetup | app/generators/utils.py:250-256 | On a new section the single empty paragraph is replaced by the table. |
| HeaderFooter.WithoutParagraphsIdempotent | app/generators/utils.py:250-253 | Removing paragraphs twice is removing them once. |
| Toc.EntryBlocks | app/generators/utils.py:137-171 | One paragraph per TOC entry. |
| Toc.CreateTocEntry | app/generators/utils.py:137-171 | Appends exactly the entry paragraph for the text, level and page. |
| Toc.AddSubChapterEntries | app/generators/utils.py:189-192 | The loop over a sub-chapter's children appends the `i.j.` entry and the `i.j.k.` entries, all on the chapter's page. |
| Toc.AddChapterEntries | app/generators/utils.py:186-192 | Appends the chapter's `i.` entry and its sub-entries on one page. |
| Toc.AddFrontEntries | app/generators/utils.py:176-184 | The counter starts at 3 and goes up by one after the thanks entry and after the abstract entry, each only when included. |
| Toc.AddChaptersEntries | app/generators/utils.py:186-193 | The chapter loop appends every chapter's entries, the n-th chapter (from 1) on page `first+n-1`, and ends with the counter at `first + #chapters`. |
| Toc.CreateToc | app/generators/utils.py:174-196 | `create_toc` appends exactly the entry paragraphs of `TocEntries` (identical copy at generator.py:141-166). |
| Toc.ChapterEntriesOnPage | app/generators/utils.py:187-192 | Every entry of one chapter carries that chapter's page, and its first entry is `"i. t"` at level 1. |
| Toc.ChaptersEntriesPages | app/generators/utils.py:186-193 | Chapter entries' pages never decrease and stay within `[first, first + #chapters)`. |
| Toc.FrontEntriesPages | app/generators/utils.py:176-184 | Thanks, when included, is on page 3; the abstract, when included, is on the page just before the first chapter. |
| Toc.TocEntriesPages | app/generators/utils.py:174-196 | The page numbers of the whole table never decrease. |
| Toc.TocEntriesEnds | app/generators/utils.py:176-196 | The table opens with `REMERCIEMENTS` on page 3 when thanks are included and ends with `ANNEXES` on page `FirstChapterPage + #chapters` when annexes are included. |
| Sections.FirstGroup | app/generators/sections/sections.py:76-86 | The first group whose keywords occur, with no earlier group matching, or 6 for none. |
| Sections.ChapterHintFirstMatch | app/generators/sections/sections.py:73-86 | `get_chapter_hint`: the hint of the first keyword group found in the lower-cased title, in the order introduction, entreprise/présentation, mission, travail/réalis, bilan, conclusion (identical copy at generator.py:2197-2212). |
| Sections.ChapterHintFallback | app/generators/sections/sections.py:86 | The generic placeholder is returned exactly when no group matches. |
| Sections.ChapterHintIgnoresCase | app/generators/sections/sections.py:75 | A title and its lower-case form get the same hint. |
| Sections.ReviewBeforeConclusion | app/generators/sections/sections.py:83-85 | `"Bilan et conclusion"` gets the `bilan` hint: the earlier group wins. |
| Sections.AddSubChapter | app/generators/sections/sections.py:99-115 | Appends the `i.j.` heading, its placeholder, then each `i.j.k.` heading with its placeholder. |
| Sections.AddChapter | app/generators/sections/sections.py:92-117 | Appends the `i.` heading, the hint paragraph, the sub-chapters and one page break. |
| Sections.GenerateChapters | app/generators/sections/sections.py:89-117 | Appends exactly `ChaptersBlocks` of the chapters, numbered by position from 1 (identical copy at generator.py:2146-2175). |
| Sections.ChapterHeadings | app/generators/sections/sections.py:93-110 | The headings of one chapter are, level and text, the TOC entries of that chapter. |
| Sections.ChaptersHeadingsAreToc | app/generators/sections/sections.py:91-117 | The body's chapter headings are character-identical to the TOC's chapter entries, level by level and in order, whatever the pages. |
| Sections.ChaptersPageBreaks | app/generators/sections/sections.py:91-117 | The chapters hold one page break per chapter, end with one, and zero chapters produce no block at all. |
| Sections.SubBlocksNoBreak | app/generators/sections/sections.py:99-115 | Sub-chapters add no page break. |
| Sections.GenerateTocSection | app/generators/sections/sections.py:10-18 | Appends the centred heading, an empty paragraph, the TOC entries and a page break. |
| Sections.AddTutorParagraph | app/generators/sections/sections.py:29-40 | Appends one paragraph thanking a tutor, with the post only when it is non-empty. |
| Sections.GenerateThanksSection | app/generators/sections/sections.py:21-48 | Appends exactly `ThanksBlocks` (inlined copy at generator.py:2091-2121). |
| Sections.ThanksShape | app/generators/sections/sections.py:21-48 | Heading, the opening with `entreprise_nom or '[Entreprise]'`, one paragraph per non-empty tutor name, the placeholder, then a page break. |
| Sections.TutorRunsShape | app/generators/sections/sections.py:29-40 | A tutor paragraph has three runs when the post is non-empty, else two, opening with the name and closing with the fixed tail. |
| Sections.GenerateAbstractSection | app/generators/sections/sections.py:51-68 | Appends the résumé heading and placeholder, an empty paragraph, the `Abstract` heading and placeholder, and a page break. |
| Sections.GenerateAnnexesSection | app/generators/sections/sections.py:120-129 | Appends the annexes heading, `Annexe A - [Titre]` and its placeholder. |
| Sections.SectionEndings | app/generators/sections/sections.py:10-129 | TOC, thanks and abstract end in a page break; the annexes hold none. |
| CoverParts.StudentNameFallbacks | app/generators/covers/covers.py:86 | The student line is `(prenom or "[Prénom]") + " " + (nom or "[NOM]")` in all four cases. |
| CoverParts.StudentNameSplits | app/generators/covers/covers.py:86 | For a first name without spaces the line splits at its first space into the two shown names. |
| CoverParts.Repeat | app/generators/covers/covers.py:1133-1138 | `for _ in range(n)` adds exactly `n` copies. |
| CoverParts.LogoParagraph | app/generators/covers/covers.py:34-40 | A logo cell holds a picture attempt when the logo is present, else stays an empty paragraph. |
| CoverParts.ImageBlocks | app/generators/covers/covers.py:74-81 | An image paragraph is added exactly when the image is present. |
| CoverParts.SpacedImage | app/generators/covers/covers.py:207-214 | The spacers and the image are added only when the image is present. |
| CoverParts.TextInCell | app/generators/covers/covers.py:125-137 | Text shown in a table cell is shown by the cover. |
| Covers.ImageParagraph | app/generators/covers/covers.py:74-81 | Builds the central image paragraph when the image is present. |
| Covers.SpacedImageParagraph | app/generators/covers/covers.py:207-214 | Builds the spacers and the image paragraph only when the image is present. |
| Covers.Repeated | app/generators/covers/covers.py:1133-1138 | The `for _ in range(n)` loop builds exactly `n` copies. |
| Covers.BorderlessXml | app/generators/covers/covers.py:31 | A new table with its borders removed. |
| Covers.FramedXml | app/generators/covers/covers.py:451 | A new table with a coloured frame. |
| Covers.LogoPairTable | app/generators/covers/covers.py:179-205 | The two-logo table with each cell gated on its logo. |
| Covers.GenerateCoverClassique | app/generators/covers/covers.py:20-139 | Fails before appending anything when the heading colour does not parse; otherwise appends exactly the classique cover. |
| Covers.ClassiqueShows | app/generators/covers/covers.py:83-111 | The classique cover shows the student line, `Stage réalisé chez` + company, `Du {debut} au {fin}`, and the subject when there is one. |
| Covers.ClassiqueLogoTableGated | app/generators/covers/covers.py:28-56 | The cover opens with the logo table exactly when at least one logo is present. |
| Covers.ClassiqueTutors | app/generators/covers/covers.py:113-139 | The cover ends with the tutor table showing `Tuteur entreprise\n` + (`tuteur_nom or "[Nom]"`) and `Tuteur académique\n` + (`tuteur_academique_nom or "[Nom]"`). |
| Covers.TutorCells | app/generators/covers/covers.py:248-267 | The moderne tutor row is the two tutor cells. |
| Covers.BuildBanner | app/generators/covers/covers.py:149-175 | Builds the shaded title banner of the moderne cover. |
| Covers.BannerShowsSubject | app/generators/covers/covers.py:166-173 | A banner shows a non-empty subject. |
| Covers.GenerateCoverModerne | app/generators/covers/covers.py:142-267 | Fails with nothing appended on a bad colour; otherwise appends exactly the moderne cover. |
| Covers.ModerneShows | app/generators/covers/covers.py:216-246 | The moderne cover shows the student line, the company and the dates. |
| Covers.TutorTableShows | app/generators/covers/covers.py:113-139 | A tutor table shows both captions and both names or `[Nom]`. |
| PlainCovers.GenerateCoverMinimaliste | app/generators/covers/covers.py:381-434 | Fails with nothing appended on a bad colour; otherwise appends exactly the minimaliste cover. |
| PlainCovers.MinimalisteShows | app/generators/covers/covers.py:381-434 | It shows the student line, the company and the dates. |
| PlainCovers.GenerateCoverGradient | app/generators/covers/covers.py:995-1097 | Fails with nothing appended on a bad colour; otherwise appends exactly the gradient cover. |
| PlainCovers.GradientShows | app/generators/covers/covers.py:995-1097 | It shows the student line, the company and the dates. |
| PlainCovers.GenerateCoverCreative | app/generators/covers/covers.py:1231-1337 | Fails with nothing appended on a bad colour; otherwise appends exactly the creative cover. |
| PlainCovers.CreativeShows | app/generators/covers/covers.py:1231-1337 | It shows the student line, the company and the dates. |
| PlainCovers.ShadeAll | app/generators/covers/covers.py:842-843 | Every cell of the row gets the fill, and there are as many cells as before. |
| PlainCovers.BuildProHeader | app/generators/covers/covers.py:833-917 | Builds the shaded three-cell header bar of the pro cover. |
| PlainCovers.BuildProInfoTable | app/generators/covers/covers.py:918-969 | Builds the four-row information table of the pro cover. |
| PlainCovers.BuildProFooter | app/generators/covers/covers.py:972-992 | Builds the pro footer bar: top border, then borders removed, then the footer run. |
| PlainCovers.GenerateCoverPro | app/generators/covers/covers.py:826-992 | Fails with nothing appended on a bad colour; otherwise appends exactly the pro cover. |
| PlainCovers.ProShows | app/generators/covers/covers.py:826-992 | It shows the student line, the company and the dates. |
| PlainCovers.ProFooterMayBeBlank | app/generators/covers/covers.py:987-990 | The footer run is `"{nom} — {ville}"` with a town, else `entreprise_nom or ""`, which is empty when both are. |
| FramedCovers.FillElegantContent | app/generators/covers/covers.py:292-378 | Builds the elegant content column. |
| FramedCovers.GenerateCoverElegant | app/generators/covers/covers.py:270-378 | Fails with nothing appended on a bad colour; otherwise appends exactly the elegant cover. |
| FramedCovers.ElegantShows | app/generators/covers/covers.py:270-378 | It shows the student line, the company and the dates. |
| FramedCovers.PutInFrames | app/generators/covers/covers.py:444-463 | Nests the content in an inner and an outer framed table. |
| FramedCovers.FramesShow | app/generators/covers/covers.py:444-463 | Text shown by the content is shown through both frames. |
| FramedCovers.FillAcademiqueContent | app/generators/covers/covers.py:464-566 | Builds the academique content inside the frames. |
| FramedCovers.GenerateCoverAcademique | app/generators/covers/covers.py:437-566 | Fails with nothing appended on a bad colour; otherwise appends exactly the academique cover. |
| FramedCovers.AcademiqueShows | app/generators/covers/covers.py:437-566 | It shows the student line, `Stage effectué chez` + company, and the dates. |
| FramedCovers.FillLuxeContent | app/generators/covers/covers.py:1369-1472 | Builds the luxe content inside the gold frames. |
| FramedCovers.GenerateCoverLuxe | app/generators/covers/covers.py:1340-1472 | Always appends exactly the luxe cover; its colour is the fixed gold. |
| FramedCovers.LuxeShows | app/generators/covers/covers.py:1340-1472 | It shows the student line, the company and the dates. |
| FramedCovers.AcademicTutorLineGated | app/generators/covers/covers.py:375-378 | The elegant and academique details hold the academic-tutor line only when that name is non-empty, and the town line only when the town is. |
| ColumnCovers.BuildGeoTop | app/generators/covers/covers.py:576-625 | Builds the geometrique top block. |
| ColumnCovers.BuildGeoLine | app/generators/covers/covers.py:626-664 | Builds the decorative line table. |
| ColumnCovers.BuildGeoInfo | app/generators/covers/covers.py:665-700 | Builds the two-by-two information block. |
| ColumnCovers.GenerateCoverGeometrique | app/generators/covers/covers.py:569-700 | Fails with nothing appended on a bad colour; otherwise appends exactly the geometrique cover. |
| ColumnCovers.GeometriqueShows | app/generators/covers/covers.py:569-700 | It shows the student line, the company and the dates. |
| ColumnCovers.FillBicoloreLeft | app/generators/covers/covers.py:710-766 | Builds the shaded left column. |
| ColumnCovers.FillBicoloreRight | app/generators/covers/covers.py:767-823 | Builds the right column: the title part, then the details. |
| ColumnCovers.GenerateCoverBicolore | app/generators/covers/covers.py:703-823 | Fails with nothing appended on a bad colour; otherwise appends exactly the bicolore cover. |
| ColumnCovers.BicoloreShows | app/generators/covers/covers.py:703-823 | It shows the student line, the company and the dates. |
| ColumnCovers.FillTimelineColumn | app/generators/covers/covers.py:1118-1151 | Builds the timeline column: dot, start marker, six bars, spacer, dot, end marker. The date markers are the corrected ones (see Findings). |
| ColumnCovers.FillTimelineContent | app/generators/covers/covers.py:1153-1228 | Builds the timeline content column. |
| ColumnCovers.GenerateCoverTimeline | app/generators/covers/covers.py:1100-1228 | Fails with nothing appended on a bad colour; otherwise appends exactly the timeline cover. The date markers are the corrected ones (see Findings). |
| ColumnCovers.TimelineShows | app/generators/covers/covers.py:1100-1228 | It shows the student line, the company, the subject when there is one, and the two date markers under the dots. |
| DateMarkers.DateMarkerAgrees | app/generators/covers/covers.py:1129 | The corrected marker equals the original wherever the original does not raise, and the original raises exactly on a non-empty all-whitespace date. |
| DateMarkers.BlankDateMarkerRaises | app/generators/covers/covers.py:1149 | As written, the date `" "` passes through the formatter unchanged and its marker raises. |
| DateMarkers.MarkerOfParsedDate | app/generators/covers/covers.py:1129 | For a date that parses, the marker is the day of the month, unpadded. |
| DateMarkers.MarkerOfIsoDate | app/generators/covers/covers.py:1149 | For every form date the marker is its day. |
| CoverRegistry.CoverModelOf | app/generators/covers/covers.py:1491-1493 | `COVER_GENERATORS.get(name, classique)`. |
| CoverRegistry.LookupFindsEveryModel | app/generators/covers/covers.py:1475-1488 | Each of the twelve models is registered under its own name and found again by it. |
| CoverRegistry.LookupByName | app/generators/covers/covers.py:1491-1493 | A registered name selects the model of that name; any other name selects classique. |
| CoverRegistry.GenerateColouredCover | app/generators/covers/covers.py:1491-1493 | Runs the generator of a colour-reading model. |
| CoverRegistry.GenerateCover | app/generators/covers/covers.py:1491-1493 | Runs the selected generator: it fails with nothing appended, or appends exactly `CoverBlocks`. The timeline cover uses the corrected date marker. |
| CoverRegistry.CoverRaisesOnlyOnColour | app/generators/covers/covers.py:25 | A cover fails exactly when it is not luxe and the heading-1 colour does not parse. The timeline cover uses the corrected date marker. |
| CoverRegistry.CoverAfterStylesSucceeds | app/generators/covers/covers.py:25 | Once the style step has succeeded, every cover succeeds. The timeline cover uses the corrected date marker. |
| CoverRegistry.LuxeIgnoresStyle | app/generators/covers/covers.py:1340-1472 | The luxe cover does not depend on the style settings. |
| CoverRegistry.CoverShowsReport | app/generators/covers/covers.py:20-1472 | Every cover that succeeds shows the student line (placeholders included), the model's company line, the model's dates line (the day markers on the timeline), and the subject when there is one. |
| CoverRegistry.ClassiqueInRegistry | app/generators/covers/covers.py:20-139 | The classique case of the registry shows the student, company and dates. |
| CoverRegistry.ModerneInRegistry | app/generators/covers/covers.py:142-267 | The moderne case of the same. |
| CoverRegistry.ElegantInRegistry | app/generators/covers/covers.py:270-378 | The elegant case of the same. |
| CoverRegistry.MinimalisteInRegistry | app/generators/covers/covers.py:381-434 | The minimaliste case of the same. |
| CoverRegistry.AcademiqueInRegistry | app/generators/covers/covers.py:437-566 | The academique case of the same. |
| CoverRegistry.GeometriqueInRegistry | app/generators/covers/covers.py:569-700 | The geometrique case of the same. |
| CoverRegistry.BicoloreInRegistry | app/generators/covers/covers.py:703-823 | The bicolore case of the same. |
| CoverRegistry.ProInRegistry | app/generators/covers/covers.py:826-992 | The pro case of the same. |
| CoverRegistry.GradientInRegistry | app/generators/covers/covers.py:995-1097 | The gradient case of the same. |
| CoverRegistry.TimelineInRegistry | app/generators/covers/covers.py:1100-1228 | The timeline case of the same. |
| CoverRegistry.CreativeInRegistry | app/generators/covers/covers.py:1231-1337 | The creative case of the same. |
| CoverRegistry.LuxeInRegistry | app/generators/covers/covers.py:1340-1472 | The luxe case of the same. |
| Report.AddCoverStep | app/generators/report_generator.py:50-54 | With the cover flag: the selected cover, then exactly one page break; without it nothing. Fails exactly when the cover does. The timeline cover uses the corrected date marker. |
| Report.CoverStepWith | app/generators/report_generator.py:50-54 | The cover step is the selected model's cover followed by one page break. |
| Report.AddSelectedCover | app/generators/report_generator.py:51-54 | Runs the cover the registry selects for `cover_model`, then one page break. |
| Report.AddFrontSections | app/generators/report_generator.py:61-71 | TOC, thanks and abstract, each only under its own flag, in that order. |
| Report.AddSections | app/generators/report_generator.py:61-77 | The front sections, the chapters always, then the annexes under their flag. |
| Report.OpenSection | app/generators/report_generator.py:29-39 | A4 page, the four configured margins, different first page, empty header and footer. |
| Report.GenerateReport | app/generators/report_generator.py:25-83 | Page setup, styles, then dates, the cover step, header, footer and sections; fails exactly when the styles or the cover fail; the body is the cover step followed by `AfterCover`. The timeline cover uses the corrected date marker. |
| Report.CoverThenSections | app/generators/report_generator.py:45-77 | After the styles, the cover step with the dates formatted once, then the header and the footer set up on the section, then the sections: it fails exactly when the cover step does, and the page size, margins and first-page flag are left as they were. |
| Report.ReportBodyOfSteps | app/generators/report_generator.py:41-77 | The report body is the cover step followed by the sections, or nothing where a step fails. |
| Report.ReportRaisesOnlyOnStyles | app/generators/report_generator.py:41-54 | The report fails exactly when the style step does. The timeline cover uses the corrected date marker. |
| Report.CoverOpensReport | app/generators/report_generator.py:50-54 | With the flag, the body opens with the selected cover and exactly one page break; without it, with the first section. |
| Report.TocSectionBreaks | app/generators/sections/sections.py:10-18 | The TOC section holds exactly one page break. |
| Report.ThanksSectionBreaks | app/generators/sections/sections.py:21-48 | The thanks section holds exactly one page break. |
| Report.AbstractAndAnnexesBreaks | app/generators/sections/sections.py:51-129 | The abstract holds one page break and the annexes none. |
| Report.SectionsPageBreaks | app/generators/report_generator.py:61-77 | After the cover the body holds one page break per included TOC, thanks and abstract, plus one per chapter. |
| Report.ChaptersMatchToc | app/generators/report_generator.py:61-74 | In the assembled body the chapters follow the front sections, and their headings are exactly the TOC's chapter entries. |
| Report.CoverShowsLongDates | app/generators/report_generator.py:45-53 | With form dates, the cover shows both dates as `"{day} {month name} {year}"`. |
| LegacyGenerator.ChooseCover | generator.py:2043-2071 | The if/elif chain selects the model the registry lookup with the classique fallback selects, for every name. |
| LegacyGenerator.LegacyCoverStep | generator.py:2043-2073 | The legacy cover step appends the same blocks as the modular one. |
| LegacyGenerator.LegacyGenerateReport | generator.py:2017-2194 | The legacy assembler fails in the same cases as the modular one and leaves the same body, header, footer and page setup. The timeline cover uses the corrected date marker. |
| LegacyGenerator.LegacyCoverThenSections | generator.py:2035-2187 | The legacy steps after the styles give the modular body, header and footer. |
| Editor.FlatAppend | static/app.js:140-182 | The depth-first pre-order walk of two forests is the concatenation of their walks. |
| Editor.FirstWithIdMeaning | static/app.js:144-153 | The first pre-order node with the id: it has the id and no earlier node does. |
| Editor.NodeAtSubtree | static/app.js:172-182 | A node's subtree occupies a contiguous slice of the pre-order walk. |
| Editor.FindAndDelete | static/app.js:172-182 | The recursive `del` computes `Delete`: the forest after the splice and whether a node was found. |
| Editor.DeleteFindsAnyMatch | static/app.js:172-182 | A node is removed exactly when some node has the id; otherwise the forest is unchanged. |
| Editor.DeleteRemovesFirstMatch | static/app.js:172-182 | The walk after deletion is the walk before it with exactly the first match's subtree cut out; every other node keeps its order. |
| Editor.FindAndAdd | static/app.js:144-156 | The recursive `findAndAdd` computes `AddChild`. |
| Editor.AddChildFindsAnyMatch | static/app.js:144-156 | A child is added exactly when some node has the parent id; otherwise the forest is unchanged. |
| Editor.AddChildAfterFirstMatch | static/app.js:144-156 | The walk gains exactly the new child, right after the first match's subtree; nothing else changes. |
| Editor.AddChildToFirstMatch | static/app.js:146-149 | The first match's children gain the new child at their end. |
| Editor.Find | static/app.js:160-170 | The recursive `find` computes `Rename`: in each list the first node with the id is retitled and the rest of that list skipped, after the children of every earlier node were searched. |
| Editor.RenameCanRetitleTwo | static/app.js:163-164 | A match inside a node's children does not stop the search of that node's list, so a later sibling with the same id is retitled as well. |
| Editor.Rename | static/app.js:160-170 | Renaming keeps the number of top-level chapters. |
| Editor.RenameKeepsShape | static/app.js:160-170 | Renaming changes no id, level or tree shape. |
| Editor.RenameOnlyRetitles | static/app.js:160-170 | Node by node in pre-order, a node is unchanged or is the same node with the new title and the matching id. |
| Editor.RenameWithoutMatch | static/app.js:160-170 | Without a matching id the forest is unchanged. |
| Editor.RenameReachesFirstMatch | static/app.js:160-170 | The first matching node always gets the new title. |
| Editor.Moved | static/app.js:184-189 | A move keeps the number of chapters. |
| Editor.MovedSwaps | static/app.js:184-189 | Entries `i` and `i+d` are swapped and no other moves; out of range, nothing changes. |
| Editor.MovedPermutes | static/app.js:184-189 | A move is a permutation of the chapters. |
| Editor.MovedBack | static/app.js:184-189 | Moving back undoes a move. |
| ChapterRows.RenderSubSub | static/app.js:99-103 | The grandchild loop renders rows numbered `n.(j+1).(k+1)`. |
| ChapterRows.RenderSubs | static/app.js:96-104 | The sub-chapter loop renders rows numbered `n.(j+1)` followed by their children's rows. |
| ChapterRows.RenderChapters | static/app.js:87-110 | `renderChapters` renders `ChaptersRows`: chapter `n` numbered `n`, one row per node to depth 3, with the add button iff `level < 3` and move buttons on top-level rows only. |
| ChapterRows.RowsMatchToc | static/app.js:91-106 | The editor's numbers and titles are the report TOC's entry texts, in the same order. |
| ChapterRows.MoveButtonsOnChapters | static/app.js:117-126 | Exactly the top-level rows show the move buttons, each passing its own chapter's position. |
| ListEditors.SpliceRemoves | static/app.js:216-219 | `splice(i, 1)` removes the item at `i`, counting from the end for a negative `i`, and nothing when out of range. |
| ListEditors.SpliceKeepsItems | static/app.js:216-219 | A splice only removes items. |
| ListEditors.AddGlossaryAppends | static/app.js:192-201 | The earlier items are kept, and one item is added at the end exactly when the term has a non-blank character. |
| ListEditors.AddFigureAppends | static/app.js:222-231 | A figure is appended exactly when the trimmed name is non-empty. |
| ListEditors.AddGanttAppends | static/app.js:253-264 | A task is appended exactly when the trimmed task, the start and the end are all non-empty. |
| ListEditors.AddGlossaryKeepsValid | static/app.js:192-201 | Every stored term is non-empty and trimmed, and every definition is non-empty and trimmed (the trimmed input or `[Définition]`). |
| ListEditors.AddFigureKeepsValid | static/app.js:222-231 | Every stored figure has a non-empty trimmed name and a non-empty trimmed page (the trimmed input or `-`). |
| ListEditors.AddGanttKeepsValid | static/app.js:253-264 | Every stored task has a non-empty trimmed name and non-empty dates. |
| ListEditors.DeleteKeepsValid | static/app.js:216-283 | Deleting keeps every list valid. |
| OutlineEditor.DefaultChaptersGetGroupHints | static/app.js:70-85 | The six default chapters get the six keyword-group hints, in order. |
| OutlineEditor.IntroductionGetsItsHint | static/app.js:73 | `Introduction` gets the introduction hint. |
| OutlineEditor.CompanyGetsItsHint | static/app.js:74 | `Présentation de l'entreprise` gets the company hint. |
| OutlineEditor.MissionsGetItsHint | static/app.js:78 | `Missions et objectifs` gets the mission hint. |
| OutlineEditor.WorkGetsItsHint | static/app.js:79 | `Travail réalisé` gets the work hint. |
| OutlineEditor.ReviewGetsItsHint | static/app.js:80 | `Bilan` gets the review hint. |
| OutlineEditor.ConclusionGetsItsHint | static/app.js:81 | `Conclusion` gets the conclusion hint. |
| OutlineEditor.NewSubChapter | static/app.js:141-149 | The new child has level `parent+1` and no children, and is titled `Nouvelle section` iff it lands on level 2, else `Nouvelle sous-section`. |
| OutlineEditor.EditorState.constructor | static/app.js:2-5 | The four arrays start empty. |
| OutlineEditor.EditorState.InitDefaultChapters | static/app.js:70-85 | The default outline only when there is no chapter yet; then the rows are rendered. |
| OutlineEditor.EditorState.AddChapter | static/app.js:135-138 | One `Nouveau chapitre` at the end; the lists are unchanged. |
| OutlineEditor.EditorState.AddSubChapter | static/app.js:140-158 | The outline becomes `AddChild` with the new sub-chapter; the lists are unchanged. |
| OutlineEditor.EditorState.UpdateChapterTitle | static/app.js:160-170 | The outline becomes `Rename`; the rows are not rendered again. |
| OutlineEditor.EditorState.DeleteChapter | static/app.js:172-182 | The outline becomes `Delete`; the lists are unchanged. |
| OutlineEditor.EditorState.MoveChapter | static/app.js:184-189 | The outline becomes `Moved`; it is rendered again only when `i+d` is in range. |
| OutlineEditor.EditorState.AddGlossaryItem | static/app.js:192-201 | Only the glossary changes, to `AddGlossary`, and the lists stay valid. |
| OutlineEditor.EditorState.DeleteGlossaryItem | static/app.js:216-219 | Only the glossary changes, by one splice. |
| OutlineEditor.EditorState.AddFigureItem | static/app.js:222-231 | Only the figures change, to `AddFigure`. |
| OutlineEditor.EditorState.DeleteFigureItem | static/app.js:247-250 | Only the figures change, by one splice. |
| OutlineEditor.EditorState.AddGanttTask | static/app.js:253-264 | Only the tasks change, to `AddGantt`. |
| OutlineEditor.EditorState.DeleteGanttTask | static/app.js:280-283 | Only the tasks change, by one splice. |

## Left out

- Saving the document (`doc.save`, OOXML serialisation) and the returned byte buffer are not modelled; the model stops at the body, header, footer and section settings.
- Lengths in points and centimetres, alignment, tab stops, line spacing and the page-number field XML are opaque tags; the 21 × 29.7 cm page and the margins are kept as reals only.
- Base64 decoding, the Pillow re-encoding and python-docx's acceptance of picture bytes are functions passed in (`Images.Imaging`); the debug `print` is left out.
- Tables are built into local block sequences and appended once filled; the source appends the table first and fills it afterwards. Nothing reads the document in between, so the final blocks are the same, but aliasing of the appended table is not modelled.
- `str.lower()` is modelled over ASCII and the Latin-1 capitals only; `strptime` and `int(_, 16)` in `hex_to_rgb` over ASCII digits only (other Unicode decimal digits are not modelled).
- `main.py` (HTTP routing, JSON decoding, the PDF conversion) and the `__init__.py` re-export files are not part of this model.
- The editor's DOM work, `updatePreview`, local storage, debouncing, `fetch`, `FileReader`, `formatDateShort` and `collectFormData` are left out; `Date.now()` ids are parameters, and `renderChapters` returns the rows it would draw. `renderGlossary`, `renderFigures` and `renderGantt` (static/app.js:203-214, 233-245, 266-278) are not modelled; the list handlers change the lists only.
- The header's and the covers' image heights and widths are kept as tags; the Gantt preview's percentages are not modelled.
- Chapter nodes deeper than level 3 are never visited, as in the source; the model does not render them either.
- OutlineEditor.EditorState.MoveChapter: requires the index of an existing chapter, which is the only index the rendered move buttons pass; a call with any other index is not modelled.
- ColumnCovers.GenerateCoverTimeline: the timeline cover is built with the corrected date marker, so the `IndexError` that covers.py:1129 and :1149 raise for a date of only blanks (see Findings) is not modelled.
- ColumnCovers.FillTimelineColumn: the timeline cover is built with the corrected date marker, so the `IndexError` that covers.py:1129 and :1149 raise for a date of only blanks (see Findings) is not modelled.
- CoverRegistry.GenerateCover: the timeline cover is built with the corrected date marker, so the `IndexError` that covers.py:1129 and :1149 raise for a date of only blanks (see Findings) is not modelled.
- CoverRegistry.CoverRaisesOnlyOnColour: the timeline cover is built with the corrected date marker, so the `IndexError` that covers.py:1129 and :1149 raise for a date of only blanks (see Findings) is not modelled; as written, the timeline cover also fails on such a date.
- CoverRegistry.CoverAfterStylesSucceeds: the timeline cover is built with the corrected date marker, so the `IndexError` that covers.py:1129 and :1149 raise for a date of only blanks (see Findings) is not modelled; as written, the timeline cover can still fail after the styles succeed.
- Report.AddCoverStep: the timeline cover is built with the corrected date marker, so the `IndexError` that covers.py:1129 and :1149 raise for a date of only blanks (see Findings) is not modelled.
- Report.ReportRaisesOnlyOnStyles: the timeline cover is built with the corrected date marker, so the `IndexError` that covers.py:1129 and :1149 raise for a date of only blanks (see Findings) is not modelled; as written, the report also fails when the timeline cover is chosen with such a date.
- Report.GenerateReport: the timeline cover is built with the corrected date marker, so the `IndexError` that covers.py:1129 and :1149 raise for a date of only blanks (see Findings) is not modelled.
- LegacyGenerator.LegacyGenerateReport: the timeline cover is built with the corrected date marker, so the `IndexError` that the legacy copy of the timeline cover raises for a date of only blanks (see Findings) is not modelled.
- Colors.ParseHexSliceIsInt: `int(_, 16)` in `hex_to_rgb` is modelled over ASCII hex digits only; Python also accepts other Unicode decimal digits (so `#٣٣٣٣٣٣` gives (51, 51, 51)), which the model rejects as a bad colour.
- Report.GenerateReport: a failure is modelled as `ok == false` with the partly built document given up; the exception itself is not modelled.

## Findings

| source | as written | input that shows it | evidently intended | confidence | as-written member | corrected member |
|---|---|---|---|---|---|---|
| app/generators/covers/covers.py:1129 | the marker is `date_debut_fr.split()[0] if date_debut_fr else ""`, and `format_date_fr` returns unparsable text unchanged | `date_debut = " "`: `format_date_fr` returns `" "`, which is truthy, so `" ".split()[0]` raises `IndexError` and the timeline cover (and the whole report) fails; the same holds for `date_fin` at line 1149 | no marker (`""`) when the date has no word, as for the empty date | medium, not executed | DateMarkers.BlankDateMarkerRaises | DateMarkers.DateMarkerAgrees |
