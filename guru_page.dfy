/** The teacher administration page: the checks the teacher form makes, the
    payload it sends (an empty phone becomes null), the form an existing row
    opens with, and the search over the loaded rows. */
module GuruPage {
  import opened Wrappers
  import opened Strings
  import opened FormRules
  import Seqs

  /** The form's fields; `email` and `mataPelajaran` are never sent. */
  datatype GuruForm = GuruForm(nip: string, namaGuru: string, noTelp: string, email: string, mataPelajaran: string)

  /** The messages recorded per field; `mata_pelajaran` never gets one. */
  datatype GuruErrors = GuruErrors(nip: Option<string>, namaGuru: Option<string>, noTelp: Option<string>, email: Option<string>)

  const NipRequired: string := "NIP is required"
  const NipNotNumeric: string := "NIP must contain only numbers"
  const NipShort: string := "NIP must be at least 8 digits"
  const NameRequired: string := "Teacher name is required"

  /** The first NIP rule that fails: required, digits only, at least eight long; no upper bound. */
  function NipError(nip: string): (r: Option<string>)
    ensures r == Some(NipRequired) <==> IsBlank(nip)
    ensures r == Some(NipNotNumeric) <==> !IsBlank(nip) && !IsNumeric(nip)
    ensures r == Some(NipShort) <==> IsNumeric(nip) && |nip| < 8
    ensures r == None <==> IsNumeric(nip) && |nip| >= 8
  {
    TrimEmptyIffBlank(nip);
    NumericNotBlank(nip);
    if Trim(nip) == "" then Some(NipRequired)
    else if !IsNumeric(nip) then Some(NipNotNumeric)
    else if |nip| < 8 then Some(NipShort)
    else None
  }

  /** The phone is optional: only a non-empty value is checked, and a blank
      one that is not empty fails the pattern. */
  function TelpError(noTelp: string): (r: Option<string>)
    ensures r == None <==> noTelp == "" || IsPhoneNumber(StripSeparators(noTelp))
    ensures r.Some? ==> r.value == InvalidPhone
  {
    if noTelp != "" then PhoneError(noTelp) else None
  }

  /** `validateForm`'s `errors` record. */
  function Validate(f: GuruForm): GuruErrors {
    GuruErrors(NipError(f.nip), NameError(f.namaGuru, NameRequired), TelpError(f.noTelp), EmailError(f.email))
  }

  predicate NoErrors(e: GuruErrors) {
    e.nip.None? && e.namaGuru.None? && e.noTelp.None? && e.email.None?
  }

  /** The form the rules describe: a NIP of at least eight digits, a name of at
      least three characters, an optional phone number and an optional e-mail address. */
  predicate ValidGuru(f: GuruForm) {
    && IsNumeric(f.nip) && |f.nip| >= 8
    && !IsBlank(f.namaGuru) && |f.namaGuru| >= 3
    && (f.noTelp == "" || IsPhoneNumber(StripSeparators(f.noTelp)))
    && (f.email == "" || EmailShape(f.email))
  }

  /** `validateForm`'s result: the errors record is empty. */
  function ValidateForm(f: GuruForm): (ok: bool)
    ensures ok <==> ValidGuru(f)
  {
    NoErrors(Validate(f))
  }

  // ---------------------------------------------------------------------------
  // payload and edit form

  /** A loaded row; a null phone is `None`. */
  datatype Guru = Guru(idGuru: int, nip: string, namaGuru: string, noTelp: Option<string>)

  /** The body sent on save. */
  datatype GuruPayload = GuruPayload(nip: string, namaGuru: string, noTelp: Option<string>)

  /** `{ nip, nama_guru, no_telp: no_telp || null }`. */
  function Payload(f: GuruForm): (p: GuruPayload)
    ensures p.nip == f.nip && p.namaGuru == f.namaGuru
    ensures p.noTelp.None? <==> f.noTelp == ""
    ensures p.noTelp.Some? ==> p.noTelp.value == f.noTelp
  {
    GuruPayload(f.nip, f.namaGuru, if f.noTelp == "" then None else Some(f.noTelp))
  }

  /** `openEditModal`: `no_telp || ""`, and the unsent fields start empty. */
  function EditForm(g: Guru): (f: GuruForm)
    ensures f.nip == g.nip && f.namaGuru == g.namaGuru
    ensures f.noTelp == "" <==> g.noTelp.None? || g.noTelp == Some("")
    ensures g.noTelp.Some? ==> f.noTelp == g.noTelp.value
    ensures f.email == "" && f.mataPelajaran == ""
  {
    GuruForm(g.nip, g.namaGuru, if g.noTelp.Some? then g.noTelp.value else "", "", "")
  }

  /** Saving a row without touching the form sends the row back, except that
      a stored empty phone is sent as null. */
  lemma EditRoundTrip(g: Guru)
    ensures Payload(EditForm(g)) ==
      GuruPayload(g.nip, g.namaGuru, if g.noTelp == Some("") then None else g.noTelp)
  {
  }

  /** An accepted, non-empty phone reaches the messaging network as `62` and 9 to 12 digits. */
  lemma ValidPhoneIsDeliverable(f: GuruForm)
    requires ValidateForm(f) && f.noTelp != ""
    ensures var wire := PdfGenerator.FormatPhoneNumber(Payload(f).noTelp.value);
      StartsWith(wire, "62") && Subscriber(wire[2..])
  {
    MatchesPhoneIff(StripSeparators(f.noTelp));
    AcceptedPhoneNormalises(f.noTelp);
  }

  // ---------------------------------------------------------------------------
  // search

  predicate Keep(g: Guru, term: string) {
    Includes(ToLower(g.namaGuru), ToLower(term)) || Includes(ToLower(g.nip), ToLower(term))
  }

  /** `filteredGuru`. */
  function FilterGuru(rows: seq<Guru>, term: string): seq<Guru> {
    Seqs.Filter(rows, g => Keep(g, term))
  }

  /** A row is shown exactly when its name or NIP contains the search term, ignoring case. */
  lemma FilterGuruMembers(rows: seq<Guru>, term: string, g: Guru)
    ensures g in FilterGuru(rows, term) <==>
      g in rows && (ContainsIgnoringCase(g.namaGuru, term) || ContainsIgnoringCase(g.nip, term))
  {
    Seqs.FilterMembers(rows, g => Keep(g, term), g);
    SearchIgnoresCase(g.namaGuru, term);
    SearchIgnoresCase(g.nip, term);
  }

  /** The shown rows keep the loaded order. */
  lemma FilterGuruAppend(a: seq<Guru>, b: seq<Guru>, term: string)
    ensures FilterGuru(a + b, term) == FilterGuru(a, term) + FilterGuru(b, term)
  {
    Seqs.FilterAppend(a, b, g => Keep(g, term));
  }
}
