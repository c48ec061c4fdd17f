# gasto-obra intake and validation, modelled in Dafny

gasto-obra lets a building contractor (the *provider*) record the expenses and
client payments of their projects. They do it from the web app or by sending
WhatsApp messages to a webhook. This project models the core of both sides.

- **The WhatsApp intake** (`server/webhooks/wp_webhook.js`):
  - the parser of typed expense lines such as `$1.234,56 Clavos #flores3b c:materiales d:nota`, and its Argentine amount format;
  - the store of pending drafts, which wait either for a project `#tag` or for a yes/no reply and expire after ten minutes;
  - the dispatcher, which routes a text message to a confirmation, a cancellation, a project completion, a command (`VINCULAR`, `DESVINCULAR`, `AYUDA`, `PROYECTOS`, `RESUMEN`, `PAGO`, `PROPIO`) or the expense-line handler;
  - the decisions taken for an audio note or a receipt photo, once the assistant's transcription or reading is known;
  - the fuzzy resolution of a spoken project reference;
  - the normalisation of category names;
  - the notification of the project's client;
  - `capitalizeFirst` and the normalisation of outgoing phone numbers.
- **The web app's document validator** (`web/utils/odm/validator.ts`): per-field checks, whole-document validation and default filling.
- **The web app's category table and helpers** (`web/utils/index.ts`).
- **The project schema** (`web/utils/odm/schemas/projectSchema.ts`): its field table, the preparation `createProject` applies to the submitted data (tag normalisation, provider, status default, share token), and the generic `create` (`web/utils/odm/schema.ts`) up to its validation: the sign-in check and the timestamps it adds.

## Modules

- `wrappers.dfy`: `Option` and `Result`.
- `text.dfy`: the JavaScript string operations the code relies on, on `seq<char>`. It covers white space, `trim`, case mapping, `includes`, `split(/\s+/)`, `join` and `capitalizeFirst`.
- `local_amount.dfy`: the amount normalisation (`replace(/\./g,'').replace(',','.')`) and `parseFloat` on the amount alphabet, with exact `real` values. A formatter (`FormatLocal`) writes a number with `.` thousands groups and a `,` decimal separator; it exists to state the round trip.
- `expense_parser.dfy`: `parseExpenseMessage`, with each regular expression written as a position function.
- `categories.dfy`: the server's category list and `normalizeCategory` (the first list entry that contains, or is contained in, the lower-cased text; `otros` otherwise).
- `category_table.dfy`: `EXPENSE_CATEGORIES`, `getCategoryLabel`, `getCategoryColor` and `getCategoryStyles` of the web app.
- `projects.dfy`: `findProjectByTag`, `getActiveProjects` and `matchProjectFromReference`, over a list that stands for the database's query results.
- `pending_store.dfy`: the pending map as a class. Its methods change the map in place and are proved equal to pure functions of the old map.
- `intake.dfy`:
  - the message handlers, as pure functions from the environment (links, projects, whether the assistant is configured) and the pending map to a reply, the document written and the client notice;
  - the imperative `ProcessMessage`, `ProcessAudio` and `ProcessImage`, proved equal to those functions.
- `validator.dfy`: `validateField` (a recursive method with a loop over array elements), `validateDocument` and `applyDefaults`. Each is proved equal to a specification function, and the properties are proved about those functions.
- `project_schema.dfy`: the project field table, `createProject` as a class whose method changes the submitted data in place, and `create`'s answer for the prepared data.

The clock, the database, the WhatsApp transport and the generative assistant are parameters:

- `now` is the time in milliseconds;
- `env` holds the WhatsApp links and the projects;
- `downloaded` says whether the media download succeeded;
- `transcript` and `receipt` are what the assistant returned;
- `answer` is what the assistant's categorisation returned;
- in the web app, `userId` and `shareToken` stand for the signed-in user and the fresh UUID.

## Model

| member | source | states |
|---|---|---|
| Text.CapitalizeFirst | server/webhooks/wp_webhook.js:1204-1207 | The empty text stays empty. Otherwise the length is kept, the first character is upper-cased and the rest is unchanged. |
| Text.CapitalizeFirstIdempotent | web/utils/index.ts:19-22 | Capitalising twice gives the same text as capitalising once. |
| Text.Trim | server/webhooks/wp_webhook.js:1047 | The result is a slice of the input with no white space at either end, and everything cut off is white space. |
| Text.TrimIdempotent | server/webhooks/wp_webhook.js:1058 | Trimming a trimmed text changes nothing. |
| Text.ContainsIff | server/webhooks/wp_webhook.js:1133 | `includes` holds exactly when the needle occurs at some position of the haystack. |
| LocalAmount.ParseLocalAmount | server/webhooks/wp_webhook.js:1061-1062 | Over the amount alphabet `[0-9.,]` the parsed amount is never negative. `None` stands for NaN. |
| LocalAmount.RoundTrip | server/webhooks/wp_webhook.js:1057-1062 | An amount written with `.` thousands groups and a `,` decimal separator parses back to its exact value, `n + frac / 10^|frac|`. |
| LocalAmount.ThousandsExample | server/webhooks/wp_webhook.js:1061-1062 | `1.234,56` parses to 1234.56. |
| LocalAmount.SecondCommaEndsNumber | server/webhooks/wp_webhook.js:1061-1062 | Only the first comma becomes a decimal point; `parseFloat` stops at the second comma. |
| LocalAmount.DigitsAmount | server/webhooks/wp_webhook.js:1061-1062 | A run of digits with no dot or comma parses to the whole number it spells. |
| LocalAmount.NoDigitsIsNaN | server/webhooks/wp_webhook.js:1062-1066 | An amount text with no digit is NaN, so the line is rejected. |
| ExpenseParser.SplitAmountLine | server/webhooks/wp_webhook.js:1050-1058 | Matches `^\$?\s*([\d.,]+)\s+(.+)$` on the trimmed text. There is no result exactly when no positions of the text fit the pattern. When positions fit with the greedy groups, the amount text and the rest are exactly the text between those positions. The amount text is a non-empty run of `[0-9.,]`; the rest is non-empty, trimmed, on one line and shorter than the text. |
| ExpenseParser.ExtractTag | server/webhooks/wp_webhook.js:1070-1074 | For the first `#` followed by a non-space run, the tag is that run lower-cased and the rest is the text with `#run` cut out, trimmed. A found tag is non-empty, has no white space and is lower-case. There is no tag exactly when no `#` is followed by a non-space character, and then the text is unchanged. A rest on one line stays on one line. |
| ExpenseParser.ExtractCategory | server/webhooks/wp_webhook.js:1077-1082 | For the first `c:` followed by a character, the category is the text up to the next `d:` (in any case, no blank needed) or the end, trimmed and lower-cased, and the rest is the text with that piece cut out, trimmed. A found category is trimmed and lower-case. There is none exactly when no `c:` is followed by a character, and then the text is unchanged. |
| ExpenseParser.ExtractDescription | server/webhooks/wp_webhook.js:1085-1090 | For the first `d:` followed by a character, the description is everything after it, trimmed, and the rest is the text before it, trimmed. A found description is trimmed and the rest gets shorter. There is none exactly when no `d:` is followed by a character. The rest never holds another `d:` marker. |
| ExpenseParser.ParseExpenseMessage | server/webhooks/wp_webhook.js:1046-1106 | The line is rejected exactly when the amount pattern fails, the amount is not positive, or nothing is left for the title. Otherwise the amount is the parsed amount text and the rest is `ParseRest` of the pattern's rest. A parsed expense has a positive amount, a non-empty trimmed title whose first letter is upper-case, and a trimmed description. |
| ExpenseParser.ParseRest | server/webhooks/wp_webhook.js:1068-1105 | The tag, the category and the description are cut out in that order. The line is rejected exactly when the text left after the three cuts trims to nothing. Otherwise the title is that text capitalised, and the tag, category and description are what the three cuts found (the description `''` when absent). |
| ExpenseParser.ParsedTitleHasNoMarkers | server/webhooks/wp_webhook.js:1078-1093 | The title of a parsed expense holds no `c:` and no `d:` marker: both fields were cut out of it. |
| ExpenseParser.ParseComposed | server/webhooks/wp_webhook.js:1046-1106 | `[$]amount title #tag`, with a plain title and tag, parses back to exactly that amount, title and tag, with no category and an empty description. |
| ExpenseParser.CategoryOfComposed | server/webhooks/wp_webhook.js:1077-1082 | In `title c:cat d:note`, with plain parts, the category cut finds `cat` and leaves `title d:note`. |
| ExpenseParser.DescriptionOfComposed | server/webhooks/wp_webhook.js:1085-1090 | In `title d:note`, with plain parts, the description cut finds `note` and leaves `title`. |
| ExpenseParser.ParseMarked | server/webhooks/wp_webhook.js:1046-1106 | `[$]amount title c:cat d:note #tag`, with plain parts, parses back to exactly that amount, title, tag, category and description. |
| ExpenseParser.ParseMarkedExample | server/webhooks/wp_webhook.js:1046-1106 | `$1.234,56 Clavos c:materiales d:Easy #flores3b` parses to 1234.56, `Clavos`, tag `flores3b`, category `materiales`, description `Easy`. |
| ExpenseParser.ParseExample | server/webhooks/wp_webhook.js:1046-1106 | `$1.234,56 Clavos y tornillos #flores3b` parses to 1234.56, `Clavos y tornillos`, tag `flores3b`. |
| ExpenseParser.NonPositiveRejected | server/webhooks/wp_webhook.js:1064-1066 | An amount that is NaN or not positive rejects the line. |
| ExpenseParser.NoAmountRejected | server/webhooks/wp_webhook.js:1050-1055 | A trimmed text that starts with neither `$` nor an amount character is not an expense. |
| ExpenseParser.TagOnlyRejected | server/webhooks/wp_webhook.js:1093-1097 | `amount #tag` with nothing else leaves an empty title, and the line is rejected. |
| ExpenseParser.BareTag | server/webhooks/wp_webhook.js:1070-1074 | `#tag` yields the tag and leaves nothing behind. |
| Categories.NormalizeCategory | server/webhooks/wp_webhook.js:1001-1003 | The result is always one of the six server categories. It is `otros` when no category overlaps the lower-cased text. A result other than `otros` overlaps that text. |
| Categories.NormalizeCategoryIsFirst | server/webhooks/wp_webhook.js:1002 | The result is the first category in list order that overlaps. |
| Categories.EmptyLabelIsFirstCategory | server/webhooks/wp_webhook.js:916 | An empty answer would be contained in every category and so become `materiales`. The categorisation never gives `''` (server/handlers/GeminiHandler.js:144-149 falls back to `otros`), so this states the normalisation's edge, not a path the handler takes. |
| Categories.NormalizeCategoryFixed | server/webhooks/wp_webhook.js:50 | Every category normalises to itself. |
| Categories.NormalizeCategoryIdempotent | server/webhooks/wp_webhook.js:1001-1003 | Normalising twice gives the same result as normalising once. |
| CategoryTable.Find | web/utils/index.ts:34 | Finds the row with the value; there is none exactly when no row has that value. |
| CategoryTable.CategoryLabel | web/utils/index.ts:33-36 | A known value gets its row's label, and an unknown one gets the value capitalised. |
| CategoryTable.LabelIsCapitalized | web/utils/index.ts:24-36 | Every label is its value capitalised, so the label is always `capitalizeFirst(value)`. |
| CategoryTable.CategoryColor | web/utils/index.ts:38-41 | A known value gets its row's colour, and an unknown one gets `#95A5A6`. The result is always a `#` followed by six characters. |
| CategoryTable.UnknownColorIsOther | web/utils/index.ts:40 | An unknown value is drawn in the colour of `otros`. |
| CategoryTable.CategoryStyles | web/utils/index.ts:43-49 | The text colour is the category colour, and the background is that colour with the alpha suffix `26`. |
| CategoryTable.TableMatchesServer | web/utils/index.ts:24-31 | The web table lists the server's categories in the same order. |
| CategoryTable.ValuesDistinct | web/utils/index.ts:24-31 | No two rows share a value. |
| Projects.FindProjectByTag | server/webhooks/wp_webhook.js:1188-1202 | A result is an active project of the user with that tag. There is none exactly when no such project exists. |
| Projects.ActiveProjects | server/webhooks/wp_webhook.js:1108-1116 | Exactly the user's projects whose status is `active`. |
| Projects.MatchProjectFromReference | server/webhooks/wp_webhook.js:1118-1146 | A missing or empty reference matches nothing. A match is in the list and lies in one of the four tiers (exact tag, tag contained, name overlap, shared word of more than two letters). No match means no project is in any tier. |
| Projects.MatchIsFirstOfFirstTier | server/webhooks/wp_webhook.js:1122-1145 | The match is the first project of the first tier that holds one. |
| Projects.ExactTagWins | server/webhooks/wp_webhook.js:1123-1124 | A project whose tag equals the lower-cased, trimmed reference wins over every partial match. |
| Projects.BlankReferenceMatchesFirst | server/webhooks/wp_webhook.js:1119-1135 | A reference made only of white space passes the emptiness check. It trims to `''`, which every name contains, so the first project is returned. |
| PendingStore.Lookup | server/webhooks/wp_webhook.js:96-104 | An entry is returned exactly when one is stored and it is not older than the TTL. |
| PendingStore.AfterLookup | server/webhooks/wp_webhook.js:99-101 | The read deletes the phone's entry exactly when it has expired, and keeps every other entry. |
| PendingStore.Evicted | server/webhooks/wp_webhook.js:72-77 | The timer deletes the entry only when it is still the one it was armed for (same timestamp). The confirmation timer also requires the entry to still await confirmation (lines 88-93). Other phones are untouched. |
| PendingStore.Store.SetPending | server/webhooks/wp_webhook.js:65-78 | The phone's entry becomes the draft, stamped `now`, awaiting a project; other entries are unchanged. |
| PendingStore.Store.SetConfirmation | server/webhooks/wp_webhook.js:80-94 | The phone's entry becomes the draft, stamped `now`, awaiting confirmation; other entries are unchanged. |
| PendingStore.Store.Get | server/webhooks/wp_webhook.js:96-104 | Returns `Lookup`, and leaves the map as `AfterLookup`. |
| PendingStore.Store.Clear | server/webhooks/wp_webhook.js:106-108 | Only the phone's key is removed. |
| PendingStore.Store.Evict | server/webhooks/wp_webhook.js:72-77 | The map becomes `Evicted` of the old map. |
| PendingStore.ReadBackWithinTtl | server/webhooks/wp_webhook.js:62-104 | A write reads back unchanged until the TTL has passed. After that the read returns nothing and deletes it. |
| PendingStore.StaleTimerKeepsNewer | server/webhooks/wp_webhook.js:72-77 | A timer armed for an overwritten entry leaves the newer entry in place. |
| PendingStore.TimerRemovesItsOwnEntry | server/webhooks/wp_webhook.js:88-93 | A timer removes its own entry, except that the confirmation timer spares an entry that no longer awaits confirmation. |
| Intake.LinkedUser | server/webhooks/wp_webhook.js:953-958 | A user exists exactly when the phone's link has status `linked`, and it is that link's user id. |
| Intake.NotifyClient | server/webhooks/wp_webhook.js:528-547 | A notice is sent exactly when the project exists and has a client phone. It goes to that phone, with the amount and project name. Its noun is `pago` exactly for a payment, `gasto` otherwise. |
| Intake.LineCategory | server/webhooks/wp_webhook.js:992-1003 | The category is always one of the six. A typed category is normalised. With nothing typed and no assistant it is `otros`. With nothing typed and the assistant configured it is the assistant's answer normalised, or `otros` when the answer is empty. |
| Intake.ExpenseLine | server/webhooks/wp_webhook.js:950-1040 | An unlinked phone gets the not-linked reply, and an unparsable line gets the not-understood reply. A line without a tag gets the missing-tag reply, and a tag naming no active project of the user gets the unknown-project reply. Otherwise the expense is registered in that project, with the category `LineCategory` gives and no transcription, and the project's client gets `NotifyClient`'s notice. A document is written exactly when the reply says registered. A written document belongs to an active project of the sender and carries the parsed amount (positive), title and description, a listed category, the type `expense` and the original text. A notice says `gasto`. |
| Intake.ParseCommandLine | server/webhooks/wp_webhook.js:801-823 | The format error comes exactly when the pattern fails; the invalid-amount error exactly when it matches with an amount that is NaN or not positive; the missing-tag error exactly when the amount is positive and the rest holds no tag. Success means a positive amount that the amount line parses to, and a non-empty tag taken out of the trimmed rest. A failure is the format, invalid-amount or missing-tag reply. |
| Intake.Pago | server/webhooks/wp_webhook.js:790-861 | An unlinked phone is refused. A rejected line gets its error's reply, and a tag naming no active project of the user the unknown-project reply. Otherwise the payment is registered in the tagged project, and the client gets `NotifyClient`'s notice for a payment. A written payment belongs to an active project of the sender and carries the parsed positive amount. Its title is the text left after the tag, or `Pago del cliente`. It has category `pago`, type `payment` and the original text. A notice says `pago`. |
| Intake.Propio | server/webhooks/wp_webhook.js:867-944 | An unlinked phone is refused, and no client notice is ever sent. A rejected line gets its error's reply, and a tag naming no active project of the user the unknown-project reply. Otherwise the expense is registered in the tagged project, with an empty description and the assistant's category normalised (`otros` without an assistant). A written expense belongs to an active project of the sender. It carries the positive amount, the title capitalised (or `Gasto propio`), a listed category (`otros` without the assistant) and type `provider_expense`. |
| Intake.LinkCode | server/webhooks/wp_webhook.js:215 | The code exists exactly when the text holds a space. It is the piece between the first blank and the next blank (or the end), upper-cased, so it holds no space. |
| Intake.Command | server/webhooks/wp_webhook.js:212-263 | On the trimmed, lower-cased text: `vincular ` asks to link with the code, or gets the format reply when the code is missing or empty; `desvincular`, `ayuda`/`help` and `proyectos` reach their handlers; `resumen ` reaches the summary with the text's tag, or gets the format reply; `pago ` is `Pago`, `propio ` is `Propio`, and any other text is `ExpenseLine`. Any document written by a command belongs to an active project of the sender, has a positive amount and keeps the original text. |
| Intake.PlainTextIsExpenseLine | server/webhooks/wp_webhook.js:212-263 | A text that starts with no command word goes to the expense-line handler. |
| Intake.ConfirmedDoc | server/webhooks/wp_webhook.js:489-506 | The confirmed document carries the draft's project, user, amount, type, title, description, category and original message, and its transcription (`null` when empty). |
| Intake.Confirm | server/webhooks/wp_webhook.js:486-522 | The entry is cleared, the draft's document is written and the reply names its type. The client is notified unless the type is `provider_expense`. |
| Intake.Complete | server/webhooks/wp_webhook.js:1148-1186 | An unknown tag leaves the map as it is and replies unknown-project. Otherwise the entry is cleared and the whole document is written to the tagged project: the draft's user, title, description, amount, category and type, its transcription (`null` when empty), and `[Audio] ` and the caption as original message. The client gets `NotifyClient`'s notice of a `gasto`. |
| Intake.Dispatch | server/webhooks/wp_webhook.js:187-263 | The new map is a sub-map of the old one, and every other phone's entry is kept. |
| Intake.ProcessMessage | server/webhooks/wp_webhook.js:187-263 | The imperative handler leaves the store and returns the outcome exactly as `Dispatch` of the old map says. |
| Intake.YesConfirms | server/webhooks/wp_webhook.js:192-196 | With a live confirmation draft, a yes-word (`si`, `sí`, `ok`, `dale`, `yes`, `confirmar`) writes the draft's document to its project and clears the entry. It notifies the client unless the draft is a provider expense. |
| Intake.NoCancels | server/webhooks/wp_webhook.js:197-201 | With a live confirmation draft, a no-word (`no`, `cancelar`, `cancel`) clears the entry, writes nothing and replies cancelled. |
| Intake.BareTagCompletes | server/webhooks/wp_webhook.js:204-210 | A bare `#tag` naming an active project of the user, sent while a draft awaits a project, clears the entry and writes the draft into that project with its user, title, amount and `[Audio] ` note; the client gets the notice of a `gasto`. |
| Intake.PagoLineExample | server/webhooks/wp_webhook.js:801-823 | `PAGO $5000 #flores3b` gives the amount 5000, the tag `flores3b` and an empty title. |
| Intake.PagoExample | server/webhooks/wp_webhook.js:790-861 | From a linked phone whose user has a project tagged `flores3b`, `PAGO $5000 #flores3b` registers a payment of 5000 titled `Pago del cliente`, category `pago`, in that project, and the notice, if any, says `pago`. |
| Intake.UnknownTagKeepsEntry | server/webhooks/wp_webhook.js:205-210 | A bare `#tag` reply naming no active project of the user keeps the draft waiting. |
| Intake.StoreUntouchedOtherwise | server/webhooks/wp_webhook.js:190-263 | Apart from those replies, a message only expires the sender's entry and is handled as a command. |
| Intake.StrayTokenNotUnderstood | server/webhooks/wp_webhook.js:192-263 | For a linked sender, a yes or no word with no confirmation pending falls through to the expense parser and is not understood. |
| Intake.LetterLedLineIsNotAnExpense | server/webhooks/wp_webhook.js:1050-1055 | A text whose trimmed first character lower-cases to one of `a`..`z` is never an expense line. |
| Intake.StepsKeepWellFormed | server/webhooks/wp_webhook.js:62-108 | These steps keep the store well formed, meaning a draft awaits confirmation exactly when it has its project: dispatching a message, the audio and image decisions, and a timer's eviction. |
| Intake.ResolveAudioProject | server/webhooks/wp_webhook.js:404-420 | A resolved project is one of the user's active projects. A caption tag naming a project wins. Failing that, the spoken reference's match among the active projects wins; failing both, the only active project is taken, and with none or several there is no project. A single active project is always resolved. |
| Intake.AudioDecision | server/webhooks/wp_webhook.js:357-480 | An unlinked phone, a missing assistant, a failed download and a transcript with neither amount nor title each get their refusal and store nothing; so do a non-positive amount and, when no project resolves, a user without active projects. Otherwise the draft takes the transcript's title (`Gasto por audio` when empty), amount, description and category (the categorisation's when empty). With a resolved project it asks for confirmation, keeps the transcription (`null` when empty) and notes `[Audio] ` and the caption. A stored draft belongs to the linked user and is stamped `now`. Its amount is positive and its type `expense`. It awaits confirmation exactly when the project resolution finds a project, and it then carries that project. The resolution tries the caption tag, then the spoken reference, then a single active project. Otherwise there are at least two active projects, the reply lists their tags and the draft keeps the caption. |
| Intake.AudioRejectsNonPositive | server/webhooks/wp_webhook.js:399-402 | A missing or non-positive amount stores nothing. |
| Intake.AudioWithoutActiveProjects | server/webhooks/wp_webhook.js:423-427 | A user with no active project gets no draft stored. |
| Intake.SingleProjectResolves | server/webhooks/wp_webhook.js:404-420 | With exactly one active project the resolution picks it, whatever the caption and the spoken reference say; by `AudioDecision` the draft then awaits confirmation for that project. |
| Intake.ProcessAudio | server/webhooks/wp_webhook.js:357-480 | The store changes as the audio decision says, through `setPendingExpense` or `setPendingConfirmation`. |
| Intake.ReceiptTitle | server/webhooks/wp_webhook.js:316 | The title is never empty. It is the store name when there is one, else the first item when there is one, else `Ticket`. |
| Intake.ImageDecision | server/webhooks/wp_webhook.js:269-351 | An unlinked phone, a caption without a tag, a tag naming no active project, a missing assistant, a failed download and a receipt without a non-zero total each get their refusal and store nothing. Otherwise the draft awaits confirmation for the tagged project, with the receipt's title, its items joined by `, ` as description, its total, the categorisation, and `[Imagen] ` and the caption as note. A draft is stored exactly when the reply asks for confirmation. It belongs to the linked user, stamped `now`, with the receipt's non-zero total, for the active project tagged in the caption. |
| Intake.ProcessImage | server/webhooks/wp_webhook.js:269-351 | The store changes as the image decision says. |
| Intake.NormalizePhoneNumber | server/webhooks/wp_webhook.js:1217-1222 | A thirteen-character number starting `549` loses its `9` and becomes twelve characters long. Any other number is unchanged. The `54` prefix is kept or absent as before. |
| Intake.NormalizePhoneNumberIdempotent | server/webhooks/wp_webhook.js:1217-1222 | Normalising twice gives the same number as normalising once. |
| Validation.FieldErrors | web/utils/odm/validator.ts:9-110 | A blank required value gets exactly one `required` error. A blank optional value gets none. Every error names the field or one of its elements `name[i]`. |
| Validation.TextBounds | web/utils/odm/validator.ts:30-44 | A text gets a too-long error exactly when a non-zero `maxLength` is exceeded, and a too-short error exactly when it falls short of a non-zero `minLength`. It gets no other error. |
| Validation.NumberBounds | web/utils/odm/validator.ts:46-57 | A non-number (NaN included) gets the single not-a-number error. A number gets an error for exactly each bound it violates. |
| Validation.ItemCheck | web/utils/odm/validator.ts:70-78 | An array element gets at most one error, and none exactly when it is non-blank and of the element type. |
| Validation.ItemsCheck | web/utils/odm/validator.ts:65-80 | An array gets at most one error per element, and none exactly when every element is of the element type. |
| Validation.ValidateField | web/utils/odm/validator.ts:9-110 | The recursive method returns exactly `FieldErrors`. |
| Validation.ValidateDocument | web/utils/odm/validator.ts:112-125 | The errors are every field's errors in schema order. The document is valid exactly when no field has an error. |
| Validation.FieldErrorsInDocument | web/utils/odm/validator.ts:115-119 | Every error of a schema field appears among the document's errors. |
| Validation.ApplyDefaults | web/utils/odm/validator.ts:127-141 | The loop returns exactly the specification `Defaults`. |
| Validation.DefaultsMeaning | web/utils/odm/validator.ts:127-141 | The result has only schema keys. A defined value is kept. An undefined one takes the default exactly when there is one, and is absent otherwise. |
| ProjectSchema.TableShape | web/utils/odm/schemas/projectSchema.ts:8-60 | The field names are distinct. `name`, `tag`, `providerId`, `status` and `shareToken` are exactly the required fields. `name` is bounded by 100 characters and `tag` by 30. |
| ProjectSchema.NormalizeTag | web/utils/odm/schemas/projectSchema.ts:69 | A normalised tag holds only `[a-z0-9]` and is never longer. |
| ProjectSchema.NormalizeTagIdempotent | web/utils/odm/schemas/projectSchema.ts:69 | Normalising twice gives the same tag as normalising once. |
| ProjectSchema.Prepared | web/utils/odm/schemas/projectSchema.ts:66-78 | The fields handed to `create`: a truthy tag is normalised; `providerId` is the user or `null`; a falsy status becomes `active` and a truthy one is kept; `shareToken` is set. Every other field is as submitted. |
| ProjectSchema.ProjectForm.CreateProject | web/utils/odm/schemas/projectSchema.ts:66-78 | A truthy tag that is not text throws, and the data is left untouched. Otherwise the data becomes `Prepared` in place. |
| ProjectSchema.WithSystemFields | web/utils/odm/schema.ts:131-147 | `createdAt` and `updatedAt` are set to the server timestamp; every other field is kept. |
| ProjectSchema.Create | web/utils/odm/schema.ts:149-177 | Without a signed-in user (none, or an empty id) the creation fails before validating. Otherwise the data with its timestamps is validated against the table: it is rejected with exactly the validator's errors when there are any, and accepted as that document when there are none. Acceptance means a signed-in user and every field passing. |
| ProjectSchema.CreateProjectResult | web/utils/odm/schemas/projectSchema.ts:66-78 | `createProject` after preparing the data: without a signed-in user it fails; an accepted document is the prepared data with its timestamps. |
| ProjectSchema.TimestampsPass | web/utils/odm/schemas/projectSchema.ts:52-59 | The timestamps `create` adds pass the date checks of `createdAt` and `updatedAt`. |
| ProjectSchema.SymbolOnlyTagIsRejected | web/utils/odm/schemas/projectSchema.ts:14-18 | With a signed-in user, a tag made only of symbols normalises to `''`, and the creation is rejected with a `tag` required error among its errors. |
| ProjectSchema.LongTagRejected | web/utils/odm/schemas/projectSchema.ts:14-18 | With a signed-in user, a tag longer than 30 characters after normalisation makes the creation rejected with a too-long error among its errors. |
| ProjectSchema.SetFieldsPass | web/utils/odm/schemas/projectSchema.ts:73-75 | With a user and a token, `providerId` and `shareToken` pass. `status` passes exactly when the submitted status was falsy or text. |
| ProjectSchema.NameAndTagAccepted | web/utils/odm/schemas/projectSchema.ts:8-78 | A form with only a name of 1 to 100 characters and a tag that normalises to 1 to 30 characters is accepted for a signed-in user. |

## Left out

- The database (Firestore), the WhatsApp transport and the generative assistant are not modelled. Their results are parameters (`env`, `downloaded`, `transcript`, `receipt`, `answer`), and writes and messages are returned as values (`Outcome`, `Decision`).
- The internals of the `VINCULAR`, `DESVINCULAR`, `AYUDA`, `PROYECTOS` and `RESUMEN` handlers, and the webhook's HTTP routing, are left out. The model keeps only the dispatch to them and the code `VINCULAR` extracts, since they only read and write the database.
- Reply texts are not modelled: each reply is a constructor. The interim `Procesando…` messages are not modelled either.
- `formatAmount` (`Intl.NumberFormat`) is not modelled, because it only affects message text.
- Amounts are exact `real` values, not IEEE doubles. Rounding and `parseFloat`'s acceptance of exponents and other characters outside `[0-9.,]` are not modelled; the regular expressions never let those characters through.
- Case mapping covers ASCII and Latin-1 only, one character to one character. `ß` is left as it is by upper-casing, where JavaScript gives `SS`. Lengths count code points, not UTF-16 units.
- Timers and concurrency are left out. The deferred eviction is the separate method `Evict`, called with the values the timer captured.
- Intake.AudioDecision: the source reads the clock separately for the draft's stamp and the entry's timestamp, while the model uses one instant `now` for both.
- Intake.ImageDecision: the same holds for images: the draft's `timestamp` (server/webhooks/wp_webhook.js:340) and the entry's (server/webhooks/wp_webhook.js:84) are two clock reads, and the eviction timer (server/webhooks/wp_webhook.js:90) only removes the entry when they are equal; the model uses one instant `now` for both, so it does not capture an entry the timer spares because the two reads differ.
- Intake.ImageDecision: the receipt's `lineItems` are not kept on the draft.
- Intake.ImageDecision: the receipt's `items` are modelled as texts. The assistant returns them as objects with a name and an amount (server/handlers/GeminiHandler.js:44-47), so in the code the title falls back to that object and the description joins `[object Object]` texts; the model's title and description are what those lines would give for text items.
- The `try`/`catch` error paths around database writes and the assistant's calls are left out. So are the media download's failure modes, beyond `downloaded = false`.
- Validation.ValidateField: the `pattern` check on texts is not modelled, because no schema in this model uses one.
- Validation.ValidateField: the date check's duck typing (dayjs, `Date`, Firestore timestamps) is collapsed into one `Date` value.
- Validation.ApplyDefaults: a default given as a function is not modelled, because the project schema's default is a constant.
- ProjectSchema.Create: `create` is modelled up to its validation. `prepareForSave` (defaults and conversion for Firestore), the database write and the read-back are left out, because they only touch the database. The user field `addSystemFields` can set is not modelled, because the project schema has no `userId`.
- The model follows the code as written: a bare `#tag` reply commits the audio draft directly, without a further confirmation step. A typed expense line is written directly, without confirmation. `PAGO` uses the category `pago`, which is outside the category list. The image path accepts any non-zero total, negative ones included.
