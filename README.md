# kpsipet core, modelled in Dafny

kpsipet is a school complaint-handling web application. An administrator approves a
complaint case (*pengaduan*), which records a follow-up (*tindak lanjut*) with a
letter number. It then renders a notification letter from a template and sends the
letter to the student's parent over a WhatsApp session. This project models the
parts of that system that decide things:

- **`PdfGenerator`** (`pdf_generator.dfy`): template placeholder substitution (13 bracketed tokens replaced in a
  fixed chain) and the canonicalisation of a parent's phone number to the `62…` form.
- **`WhatsApp`** (`whatsapp.dfy`): the session service as a class. It holds the
  `client`, `qrCode`, `isReady` and `isInitializing` fields, with their guards and
  event callbacks. The transport is a `Client` object that records the messages it
  delivers.
- **`WhatsAppInit`** (`whatsapp_init.dfy`): the session-initialisation endpoint.
  `POST` branches on the session status; `GET` maps the status to a label.
- **`TindakLanjutRoute`** (`tindak_lanjut.dfy`): the approval endpoint. A store class
  holds three tables. The model covers the ordered pre-checks, the two writes, the
  letter number, the attachment name and the best-effort delivery report.
- **`Middleware`** (`middleware.dfy`): the request gate and the role-to-dashboard
  map. It also restates the gate as an area/role table.
- **`FormRules`**, **`SiswaPage`**, **`GuruPage`** and **`UsersPage`**: the admin forms'
  validators, the payload and edit-form conversions, and the search filters.
  **`Seqs`** supplies the order-preserving filter and the sorted de-duplication.
- **`Strings`** and **`Wrappers`**: helpers (ASCII character classes, `trim`,
  `includes`, `toLowerCase`, `String(n)`, `padStart`, `replace`) and the
  `Option` / `Result` / `Outcome` types.

Inputs the code takes from outside are parameters:

- **Clock:** one instant `now` per request. Its month is 0-based, as `getMonth()` returns it.
- **Dates:** the locale date formatter is a function `formatDate`.
- **Session token:** the middleware's token.
- **Transport:** a `Behaviour` value fixed when the client is created. It says which
  transport calls fail and which chat ids are registered.
- **Database:** each write's possible rejection by the database is a `fault` argument.
- **PDF layout engine:** `compose`, which returns bytes or an error message.

Points where the model fixes a reading of the code:

- JavaScript truthiness is written out: `""`, `0` and an absent field are falsy.
  So a PDF is attached only with a non-empty file name, and an id of `0` fails the
  required-fields check.
- `qrCode || null` turns `""` into null.
- Both the letter number and `[TAHUN]` use the request's single `now`.

### Behaviour of the code worth knowing

- **Placeholder tokens.** The letter template's placeholders are Indonesian tokens,
  `[NAMA_SISWA]`, `[NISN]`, … `[TAHUN]`, replaced in a fixed order
  (src/services/pdfGenerator.ts:52-64).
- **Starting a session.** `initialize` (src/services/whatsapp.ts:15-24) refuses
  only while `isInitializing` is set, or while a client is installed and ready. So
  after an `auth_failure`, or while a client is installed but not ready, it installs
  a second client without destroying the first.
- **Authentication failure.** The `auth_failure` handler
  (src/services/whatsapp.ts:73-77) only clears the two flags. The client and the
  QR code stay.
- **Disconnecting.** `disconnect` (src/services/whatsapp.ts:181-195) does nothing
  when there is no client, so a QR code left by a `disconnected` event survives it.
  A failed `destroy` changes nothing.
- **The approval's two writes.** The approval endpoint creates the follow-up and then
  updates the case (src/app/api/tindak-lanjut/route.ts:68-83). The two writes are not
  one transaction: if the update fails the answer is 500, but the follow-up stays.
- **The phone normaliser.** `formatPhoneNumber` (src/services/pdfGenerator.ts:208-224)
  keeps every `+`, so `"0+1"` becomes `"62+1"`, and a lone `"+"` becomes `""`.
- **The initialisation reply.** After starting a session, `POST`
  (src/app/api/whatsapp/init/route.ts:29-42) waits five seconds and then reports the
  QR code stored by then. It says `initializing` even if the session became ready
  during the wait.

## Model

| member | source | states |
|---|---|---|
| PdfGenerator.FillsEveryPlaceholder | src/services/pdfGenerator.ts:51-64 | Every occurrence of each of the 13 tokens in a template is replaced by its own field's value (dates through `formatDate`, the year in decimal), when neither the template's text nor the values contain `[` |
| PdfGenerator.NoTokenUnchanged | src/services/pdfGenerator.ts:51-64 | A template without any of the 13 tokens comes back unchanged |
| PdfGenerator.LaterTokenInValueIsReplaced | src/services/pdfGenerator.ts:51-64 | The chain is sequential: a student name equal to `[NISN]` ends up as the NISN |
| PdfGenerator.ChainCoversAll | src/services/pdfGenerator.ts:51-64 | The chain lists each of the 13 placeholders exactly once |
| PdfGenerator.NameInjective | src/services/pdfGenerator.ts:52-64 | Distinct placeholders have distinct names |
| PdfGenerator.TokenShape | src/services/pdfGenerator.ts:52-64 | A token is `[`, upper-case letters and `_`, then `]` |
| PdfGenerator.TokenPrefixUnique | src/services/pdfGenerator.ts:52-64 | No token is a prefix of text starting with another token |
| PdfGenerator.ReplaceAllOtherToken | src/services/pdfGenerator.ts:52-64 | Replacing one token leaves another token in front untouched |
| PdfGenerator.ReplaceAllAbsent | src/services/pdfGenerator.ts:52-64 | A global replace of a pattern that does not occur changes nothing |
| PdfGenerator.ReplaceAllAtPattern | src/services/pdfGenerator.ts:52-64 | A global replace turns a leading occurrence into the value and continues after it |
| PdfGenerator.ReplaceAllBracketPrefix | src/services/pdfGenerator.ts:52-64 | Text that opens with its only `[` and does not start with the pattern is kept as it is |
| PdfGenerator.ReplaceAllPlainPrefix | src/services/pdfGenerator.ts:52-64 | Text without `[` in front of a token pattern is kept as it is |
| PdfGenerator.ReplaceStep | src/services/pdfGenerator.ts:52-64 | One replacement in the chain fills exactly the slots of that placeholder |
| PdfGenerator.ChainStep | src/services/pdfGenerator.ts:51-64 | Running the chain fills the slots of every placeholder it lists |
| PdfGenerator.ChainAbsent | src/services/pdfGenerator.ts:51-64 | The chain leaves a text without tokens unchanged |
| PdfGenerator.FormatPhoneNumber | src/services/pdfGenerator.ts:208-224 | The result has only digits and `+`, and starts with `62` unless the stripped input starts with `+` |
| PdfGenerator.StripPhoneChars | src/services/pdfGenerator.ts:210 | Stripping leaves only digits and `+` |
| PdfGenerator.StripPhoneKeeps | src/services/pdfGenerator.ts:210 | Stripping keeps a string made only of digits and `+` |
| PdfGenerator.StripPhoneAppend | src/services/pdfGenerator.ts:210 | Stripping works character by character |
| PdfGenerator.FormatPhoneIdempotent | src/services/pdfGenerator.ts:208-224 | Normalising twice equals normalising once, when the stripped input does not start with `+` |
| PdfGenerator.FormatPhoneEmpty | src/services/pdfGenerator.ts:213-218 | `""` becomes `"62"` |
| PdfGenerator.FormatPhoneInnerPlus | src/services/pdfGenerator.ts:210-215 | A `+` that is not in front survives: `"0+1"` becomes `"62+1"` |
| PdfGenerator.FormatPhoneLocal | src/services/pdfGenerator.ts:214-215 | `"08123456789"` becomes `"628123456789"` |
| PdfGenerator.FormatPhonePlus | src/services/pdfGenerator.ts:219-221 | `"+6281234567"` becomes `"6281234567"` |
| PdfGenerator.FormatPhoneBare | src/services/pdfGenerator.ts:216-218 | `"81234567"` becomes `"6281234567"` |
| WhatsApp.WhatsAppService.constructor | src/services/whatsapp.ts:5-8 | A new service has no client, no QR code and both flags clear |
| WhatsApp.WhatsAppService.Initialize | src/services/whatsapp.ts:15-95 | Refuses with "already initializing", or with "already connected" when a client is installed and ready, changing nothing; otherwise installs a fresh client with `isInitializing` set; a failing start clears `isInitializing` and reports the error |
| WhatsApp.WhatsAppService.OnQr | src/services/whatsapp.ts:48-57 | The `qr` event stores the encoder's non-empty data URL; an encoding failure leaves the QR code as it was |
| WhatsApp.WhatsAppService.OnReady | src/services/whatsapp.ts:60-65 | The `ready` event sets `isReady`, clears `isInitializing` and empties the QR code |
| WhatsApp.WhatsAppService.OnAuthFailure | src/services/whatsapp.ts:73-77 | The `auth_failure` event clears both flags and keeps the client and QR code |
| WhatsApp.WhatsAppService.OnDisconnected | src/services/whatsapp.ts:80-85 | The `disconnected` event clears both flags and the client, and keeps the QR code |
| WhatsApp.WhatsAppService.GetQRCode | src/services/whatsapp.ts:98-100 | A pure read of the stored QR code |
| WhatsApp.WhatsAppService.IsClientReady | src/services/whatsapp.ts:103-105 | A pure read of `isReady` |
| WhatsApp.WhatsAppService.IsClientInitializing | src/services/whatsapp.ts:108-110 | A pure read of `isInitializing` |
| WhatsApp.WhatsAppService.GetStatus | src/services/whatsapp.ts:113-119 | A pure read, with `hasQR` exactly when the QR code is non-empty |
| WhatsApp.ChatIdInjective | src/services/whatsapp.ts:134-148 | Two phone numbers reach the same chat exactly when the letter generator's rule normalises them to the same number |
| WhatsApp.WhatsAppService.SendMessage | src/services/whatsapp.ts:122-178 | "Not ready" before any transport call without a ready client. The lookup fault and an unregistered number (reported with the raw phone) send nothing. The text goes first. The PDF follows, with its caption, only when a buffer and a non-empty file name are given. A failure keeps what was already delivered |
| WhatsApp.WhatsAppService.Disconnect | src/services/whatsapp.ts:181-195 | Without a client nothing changes (a stale QR code stays); a failed destroy changes nothing and is reported; otherwise the client is destroyed and all four fields are reset |
| WhatsAppInit.QrOrNull | src/app/api/whatsapp/init/route.ts:25 | `qrCode \|\| null` is null exactly for the empty string |
| WhatsAppInit.StatusLabel | src/app/api/whatsapp/init/route.ts:65 | `ready` when ready, else `initializing` when initializing, else `disconnected` |
| WhatsAppInit.GetReply | src/app/api/whatsapp/init/route.ts:63-70 | The `GET` body: the label, the QR code or null, and the three status fields forwarded unchanged |
| WhatsAppInit.Get | src/app/api/whatsapp/init/route.ts:58-70 | Read off the live service, `hasQR` holds exactly when the reported QR code is not null |
| WhatsAppInit.Post | src/app/api/whatsapp/init/route.ts:5-34 | Ready: answers "already connected" and touches nothing. Initializing: answers with the current QR code or null and touches nothing. Both answers carry the status label `GET` would give. Otherwise it starts the session, swallows the start's failure, and gives no answer until after the wait |
| WhatsAppInit.PostAfterWait | src/app/api/whatsapp/init/route.ts:36-42 | The answer after the wait reads the live service: status `initializing`, and the QR code stored by then, or null exactly when none is stored |
| TindakLanjutRoute.Store.constructor | src/app/api/tindak-lanjut/route.ts:24-61 | The store holds the given cases, follow-ups and templates |
| TindakLanjutRoute.Store.CreateTindakLanjut | src/app/api/tindak-lanjut/route.ts:68-77 | Inserts the follow-up under its case id, refusing a second one for the same case; a rejected write changes nothing |
| TindakLanjutRoute.Store.SetStatus | src/app/api/tindak-lanjut/route.ts:80-83 | Updates only the case's status; a missing case or a rejected write changes nothing |
| TindakLanjutRoute.Precheck | src/app/api/tindak-lanjut/route.ts:13-61 | Exactly one answer per request, in order: 400 for a falsy field, 404 for a missing case, 400 for an existing follow-up, 404 for a missing template, else the case and template |
| TindakLanjutRoute.FileNumberExample | src/app/api/tindak-lanjut/route.ts:64-65 | Case 7 in March 2025 gets `007/SP/3/2025`: the id is padded, the month is not |
| TindakLanjutRoute.FileNumberKeepsLongIds | src/app/api/tindak-lanjut/route.ts:65 | Ids of three digits or more are written in full: `padStart` never truncates |
| TindakLanjutRoute.PaddedId | src/app/api/tindak-lanjut/route.ts:65 | The padded id is all digits and denotes the id |
| TindakLanjutRoute.FileNumberInjective | src/app/api/tindak-lanjut/route.ts:65 | Distinct case ids get distinct letter numbers whatever the dates |
| TindakLanjutRoute.FileNumberNoWhitespace | src/app/api/tindak-lanjut/route.ts:65 | A letter number has no whitespace |
| TindakLanjutRoute.AttachmentName | src/app/api/tindak-lanjut/route.ts:122 | The file name starts with `Surat_Pemberitahuan_` |
| TindakLanjutRoute.AttachmentNameShape | src/app/api/tindak-lanjut/route.ts:122 | The file name has no whitespace (whitespace runs of the name became `_`); the number part has no `/`; a name without whitespace is kept verbatim |
| TindakLanjutRoute.WhitespaceRunsGone | src/app/api/tindak-lanjut/route.ts:122 | `replace(/\s+/g, '_')` leaves no whitespace |
| TindakLanjutRoute.WhitespaceRunsKeepPlain | src/app/api/tindak-lanjut/route.ts:122 | `replace(/\s+/g, '_')` keeps a string without whitespace |
| TindakLanjutRoute.Notify | src/app/api/tindak-lanjut/route.ts:86-140 | A failed rendering or a session that is not ready sends nothing, and the latter reports the fixed "not connected" text. `sent` holds exactly when the transport accepted both the text and the letter, appended in that order. A failed lookup or text send is reported with its message, or the fallback text when that is empty, and nothing is delivered. An unregistered number is reported as such, and nothing is delivered. A failed letter send is reported the same way and leaves the text delivered. The phone number reported is the raw contact |
| TindakLanjutRoute.Deliver | src/app/api/tindak-lanjut/route.ts:89-140 | The letter is laid out from the case, the follow-up and the template body with its placeholders filled, and its delivery is reported as `Notify` states |
| TindakLanjutRoute.Commit | src/app/api/tindak-lanjut/route.ts:64-151 | After the checks: a failed first write is reported as 500 with no writes and nothing sent. A failed second write is reported as 500, the first write persists, and nothing is sent. Otherwise the case becomes `Disetujui` and the answer is 201 with the record and the delivery report |
| TindakLanjutRoute.Approve | src/app/api/tindak-lanjut/route.ts:7-163 | A failed check writes and sends nothing. A failed first write is reported as 500 with no writes. A failed second write is reported as 500 and the first write persists. Otherwise the follow-up is added, the case becomes `Disetujui`, and the answer is 201 with the record, whatever happens to the delivery. The template table is never changed |
| Middleware.DashboardForRole | src/middleware.ts:81-93 | admin → `/admin/dashboard`, guru and petugas → `/guru/dashboard`, siswa → `/siswa/dashboard`, anything else → `/login`, each an if-and-only-if |
| Middleware.PublicRoutes | src/middleware.ts:9-26 | On a public path, a signed-in request for exactly `/login` goes to its dashboard; everything else passes |
| Middleware.LoginPrefixIsPublic | src/middleware.ts:9-10 | The public test is by prefix: `/loginx` passes without a token |
| Middleware.AnonymousGoesToLogin | src/middleware.ts:29-33 | A protected path without a token redirects to `/login` with the path as `callbackUrl` |
| Middleware.AccessTable | src/middleware.ts:35-78 | A signed-in request to a protected path passes exactly when its role may enter the path's area; otherwise page areas redirect to the role's dashboard and API areas answer 403 |
| Middleware.AreaFacts | src/middleware.ts:38-76 | Which of the six prefix tests a path in a given area passes |
| Middleware.AreaUnique | src/middleware.ts:38-76 | A path lies in at most one area |
| Middleware.AreaExists | src/middleware.ts:38-76 | Every path lies in some area |
| Middleware.DashboardAdmitsItsRole | src/middleware.ts:38-57 | Each known role is let into its own dashboard |
| Middleware.UnknownRoleLoops | src/middleware.ts:19-57 | A token with an unknown role is sent from `/login` to `/login`, and from every page area too |
| FormRules.NameError | src/app/admin/siswa/page.tsx:85-89 | Blank after trim → the required message; otherwise an untrimmed length below 3 → "at least 3"; each an if-and-only-if |
| FormRules.MatchesPhoneIff | src/app/admin/siswa/page.tsx:100 | The phone regular expression accepts exactly `62`, `+62` or `0` followed by 9 to 12 digits |
| FormRules.PhoneError | src/app/admin/siswa/page.tsx:100-103 | Accepts exactly the values that match the phone pattern after removing whitespace and `-` |
| FormRules.MatchesPhoneChars | src/app/admin/siswa/page.tsx:100 | A number the phone pattern accepts has only digits and `+` |
| FormRules.StripSeparatorsThenPhone | src/app/admin/siswa/page.tsx:101 | Removing separators first does not change what the letter generator's normaliser produces |
| FormRules.AcceptedPhoneNormalises | src/app/admin/siswa/page.tsx:100-101 | An accepted phone reaches the messaging network as `62` and 9 to 12 digits |
| FormRules.MatchesEmailIff | src/app/admin/siswa/page.tsx:108 | The e-mail regular expression accepts exactly the addresses with no whitespace, one `@`, a non-empty local part and a `.` inside the domain with text on both sides |
| FormRules.EmailError | src/app/admin/siswa/page.tsx:107-112 | An empty address passes; any other must have that shape |
| FormRules.EmailSplitShape | src/app/admin/siswa/page.tsx:108 | A way the pattern matches gives the shape |
| FormRules.ShapeEmailSplit | src/app/admin/siswa/page.tsx:108 | The shape gives a way the pattern matches |
| FormRules.StripSeparatorsBlank | src/app/admin/siswa/page.tsx:97-101 | A blank value strips to `""` |
| FormRules.NumericNotBlank | src/app/admin/siswa/page.tsx:76-78 | A string of digits is not blank |
| SiswaPage.NisnError | src/app/admin/siswa/page.tsx:76-82 | The first failing NISN rule: blank → required, not all digits → only numbers, length ≠ 10 → exactly 10 |
| SiswaPage.KelasError | src/app/admin/siswa/page.tsx:92-94 | The class is required after trim |
| SiswaPage.ContactError | src/app/admin/siswa/page.tsx:97-104 | Blank → required; otherwise invalid unless the separator-free value is a phone number |
| SiswaPage.ValidateForm | src/app/admin/siswa/page.tsx:72-116 | No error is recorded exactly when the NISN has 10 digits, the name is not blank and is at least 3 long, the class is not blank, the contact is a phone number and the e-mail is empty or well formed |
| SiswaPage.ValidContactIsDeliverable | src/app/admin/siswa/page.tsx:97-104 | A valid form's contact is sent to `62` and 9 to 12 digits |
| SiswaPage.AcceptedContactChatId | src/app/admin/siswa/page.tsx:97-104 | Every contact the form accepts is delivered to the chat `62`, then 9 to 12 digits, then `@c.us` |
| SiswaPage.FilterSiswaMembers | src/app/admin/siswa/page.tsx:222-227 | A row is shown exactly when its name or NISN contains the search term ignoring case, and the class filter is empty or names its class |
| SiswaPage.FilterSiswaAppend | src/app/admin/siswa/page.tsx:222-227 | Filtering keeps the loaded order |
| SiswaPage.FilterSiswaNoCriteria | src/app/admin/siswa/page.tsx:222-227 | No search term and no class shows every row |
| SiswaPage.UniqueKelasSpec | src/app/admin/siswa/page.tsx:229 | The class options are strictly sorted and are exactly the classes of the loaded rows |
| SiswaPage.UniqueKelasIsUnique | src/app/admin/siswa/page.tsx:229 | They are the only such list |
| GuruPage.NipError | src/app/admin/guru/page.tsx:69-75 | The first failing NIP rule: blank → required, not all digits → only numbers, shorter than 8 → at least 8; no upper bound |
| GuruPage.TelpError | src/app/admin/guru/page.tsx:85-90 | Empty passes; anything else must be a phone number once separators are removed |
| GuruPage.ValidateForm | src/app/admin/guru/page.tsx:65-102 | No error is recorded exactly when the NIP is at least 8 digits, the name is not blank and at least 3 long, and the phone and e-mail are empty or well formed |
| GuruPage.Payload | src/app/admin/guru/page.tsx:121-125 | An empty phone is sent as null, any other as typed |
| GuruPage.EditForm | src/app/admin/guru/page.tsx:183-193 | A null phone opens as `""` |
| GuruPage.EditRoundTrip | src/app/admin/guru/page.tsx:121-125 | Saving an untouched edit form sends the row back, except a stored `""` phone becomes null |
| GuruPage.ValidPhoneIsDeliverable | src/app/admin/guru/page.tsx:85-90 | An accepted non-empty phone is sent to `62` and 9 to 12 digits |
| GuruPage.FilterGuruMembers | src/app/admin/guru/page.tsx:205-209 | A row is shown exactly when its name or NIP contains the search term ignoring case |
| GuruPage.FilterGuruAppend | src/app/admin/guru/page.tsx:205-209 | Filtering keeps the loaded order |
| UsersPage.UsernameError | src/app/admin/users/page.tsx:65-71 | The first failing username rule: blank → required, shorter than 3 → at least 3, other than letters, digits and `_` → charset; no maximum |
| UsersPage.PasswordError | src/app/admin/users/page.tsx:74-80 | Checked when creating or when a password is typed while editing: empty → required, shorter than 6 → at least 6 |
| UsersPage.RoleError | src/app/admin/users/page.tsx:83-85 | The role is required |
| UsersPage.WordNotBlank | src/app/admin/users/page.tsx:69 | A username of letters, digits and `_` is not blank |
| UsersPage.ValidateForm | src/app/admin/users/page.tsx:61-89 | No error is recorded exactly when the username is at least 3 word characters, the password is long enough or left empty while editing, and the role is set |
| UsersPage.EditForm | src/app/admin/users/page.tsx:164 | The edit form starts with an empty password |
| UsersPage.UnchangedEditKeepsPassword | src/app/admin/users/page.tsx:74-80 | An untouched edit passes the password check; the same form as a new account is refused for the missing password |
| UsersPage.FilterUsersMembers | src/app/admin/users/page.tsx:178-180 | A user is shown exactly when the username contains the search term ignoring case |
| UsersPage.FilterUsersAppend | src/app/admin/users/page.tsx:178-180 | Filtering keeps the loaded order |

## Left out

- The PDF layout (`generateComplaintLetter`): pdfkit drawing. The approval endpoint takes it as a function `compose` of the letter data and the rendered body, returning bytes or an error message.
- The transport library (whatsapp-web.js `Client`, puppeteer, `LocalAuth`, `QRCode.toDataURL`, `MessageMedia` and its base64 encoding): replaced by the `Client` class, whose answers are fixed by a `Behaviour` value. The encoder's result reaches `OnQr` as an argument.
- The `authenticated` event: it only logs.
- Logging (`console.*`): it has no effect on state.
- Asynchrony: every handler and method is one atomic step. Events that arrive while `client.initialize()` runs are separate calls to the event methods. The init endpoint's 5-second wait is the gap between `WhatsAppInit.Post` and `WhatsAppInit.PostAfterWait`, where event methods may be called. `Initialize` stands for the whole of `initialize()`.
- Concurrent requests: not modelled.
- `WhatsAppInit.Post`: the `catch` path answering 500 is not modelled. No call it makes throws once `initialize`'s rejection is swallowed.
- `toLocaleDateString('id-ID')` and the clock: `formatDate` is a parameter, and one `now` serves every `new Date()` of a request, including `tgl_proses`.
- `PdfGenerator.FillsEveryPlaceholder`: stated only for templates whose literal text and field values contain no `[`. Otherwise a value can complete a token and be substituted again; `LaterTokenInValueIsReplaced` shows that case.
- `PdfGenerator.ReplacePlaceholders`: the `$` patterns that `String.replace` expands in replacement strings are not modelled; values are inserted literally.
- Prisma: the tables are maps in the `Store` class. The follow-up's database id is not modelled, and it is keyed by its case id, which the schema requires to be unique. The endpoint's `GET` list and its ordering are not modelled.
- ORM error messages: the two rejection messages `Store` uses are stand-ins for what Prisma reports.
- Errors thrown while reading the store: not modelled.
- The request body: ids arrive already parsed (`parseInt`), and a missing or unparsable field is absent.
- `String(n)`: written as decimal, without the exponent notation JavaScript uses for very large numbers.
- Unicode: `\s`, `trim` and `toLowerCase` are approximated by their ASCII behaviour. `.length` counts characters, not UTF-16 code units. The default sort compares characters, not UTF-16 code units.
- The siswa page's payload field selection and the unsent `alamat`, `email` and `nama_ortu` fields: outside the validators only.
- React state, toasts, modals, fetching, deletion and rendering of the three admin pages: only `validateForm`, the payload, the edit form, the filters and `uniqueKelas` are modelled.
- The middleware's `matcher` configuration: excludes static files from the gate; not modelled.
- `getToken`: the token is an input.
- The authentication helpers and the thin WhatsApp status, send and disconnect routes: not modelled.
