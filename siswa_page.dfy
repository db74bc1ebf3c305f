/** The student administration page: the checks the student form makes before
    it is submitted, the search over the loaded rows, and the list of classes
    offered by the class filter. */
module SiswaPage {
  import opened Wrappers
  import opened Strings
  import opened FormRules
  import Seqs
  import WhatsApp

  /** The form's fields; `alamat`, `email` and `namaOrtu` are never sent. */
  datatype SiswaForm = SiswaForm(
    nisn: string, namaSiswa: string, kelas: string, kontakOrtu: string,
    alamat: string, email: string, namaOrtu: string)

  /** The messages recorded per field; `alamat` and `nama_ortu` never get one. */
  datatype SiswaErrors = SiswaErrors(
    nisn: Option<string>, namaSiswa: Option<string>, kelas: Option<string>,
    kontakOrtu: Option<string>, email: Option<string>)

  const NisnRequired: string := "NISN is required"
  const NisnNotNumeric: string := "NISN must contain only numbers"
  const NisnLength: string := "NISN must be exactly 10 digits"
  const NameRequired: string := "Student name is required"
  const KelasRequired: string := "Class is required"
  const ContactRequired: string := "Parent contact is required"

  /** The first NISN rule that fails: required, digits only, exactly ten long. */
  function NisnError(nisn: string): (r: Option<string>)
    ensures r == Some(NisnRequired) <==> IsBlank(nisn)
    ensures r == Some(NisnNotNumeric) <==> !IsBlank(nisn) && !IsNumeric(nisn)
    ensures r == Some(NisnLength) <==> IsNumeric(nisn) && |nisn| != 10
    ensures r == None <==> IsNumeric(nisn) && |nisn| == 10
  {
    TrimEmptyIffBlank(nisn);
    NumericNotBlank(nisn);
    if Trim(nisn) == "" then Some(NisnRequired)
    else if !IsNumeric(nisn) then Some(NisnNotNumeric)
    else if |nisn| != 10 then Some(NisnLength)
    else None
  }

  function KelasError(kelas: string): (r: Option<string>)
    ensures r == Some(KelasRequired) <==> IsBlank(kelas)
    ensures r == None <==> !IsBlank(kelas)
  {
    TrimEmptyIffBlank(kelas);
    if Trim(kelas) == "" then Some(KelasRequired) else None
  }

  /** A blank contact is reported as missing; anything else must be a phone
      number once spaces and hyphens are removed. */
  function ContactError(kontak: string): (r: Option<string>)
    ensures r == Some(ContactRequired) <==> IsBlank(kontak)
    ensures r == Some(InvalidPhone) <==> !IsBlank(kontak) && !IsPhoneNumber(StripSeparators(kontak))
    ensures r == None <==> IsPhoneNumber(StripSeparators(kontak))
  {
    TrimEmptyIffBlank(kontak);
    StripSeparatorsBlank(kontak);
    if Trim(kontak) == "" then Some(ContactRequired) else PhoneError(kontak)
  }

  /** `validateForm`'s `errors` record. */
  function Validate(f: SiswaForm): SiswaErrors {
    SiswaErrors(
      NisnError(f.nisn),
      NameError(f.namaSiswa, NameRequired),
      KelasError(f.kelas),
      ContactError(f.kontakOrtu),
      EmailError(f.email))
  }

  predicate NoErrors(e: SiswaErrors) {
    e.nisn.None? && e.namaSiswa.None? && e.kelas.None? && e.kontakOrtu.None? && e.email.None?
  }

  /** The form the rules describe: a ten-digit NISN, a name of at least three
      characters, a class, a parent phone number, and an optional e-mail address. */
  predicate ValidSiswa(f: SiswaForm) {
    && IsNumeric(f.nisn) && |f.nisn| == 10
    && !IsBlank(f.namaSiswa) && |f.namaSiswa| >= 3
    && !IsBlank(f.kelas)
    && IsPhoneNumber(StripSeparators(f.kontakOrtu))
    && (f.email == "" || EmailShape(f.email))
  }

  /** `validateForm`'s result: no field recorded an error. */
  function ValidateForm(f: SiswaForm): (ok: bool)
    ensures ok <==> ValidSiswa(f)
  {
    NoErrors(Validate(f))
  }

  /** A valid form's parent contact reaches the messaging network as `62` and
      9 to 12 digits. */
  lemma ValidContactIsDeliverable(f: SiswaForm)
    requires ValidateForm(f)
    ensures var wire := PdfGenerator.FormatPhoneNumber(f.kontakOrtu);
      StartsWith(wire, "62") && Subscriber(wire[2..])
  {
    MatchesPhoneIff(StripSeparators(f.kontakOrtu));
    AcceptedPhoneNormalises(f.kontakOrtu);
  }

  /** Every parent contact the form accepts is delivered to the chat `62`, then
      9 to 12 digits, then `@c.us`. */
  lemma AcceptedContactChatId(kontak: string)
    requires ContactError(kontak) == None
    ensures var id := WhatsApp.ChatId(kontak);
      && 16 <= |id| <= 19
      && StartsWith(id, "62") && Subscriber(id[2..|id| - 5]) && id[|id| - 5..] == "@c.us"
  {
    MatchesPhoneIff(StripSeparators(kontak));
    AcceptedPhoneNormalises(kontak);
    var wire := PdfGenerator.FormatPhoneNumber(kontak);
    var id := WhatsApp.ChatId(kontak);
    assert id[2..|id| - 5] == wire[2..];
  }

  // ---------------------------------------------------------------------------
  // search and class filter

  datatype Siswa = Siswa(idSiswa: int, nisn: string, namaSiswa: string, kelas: string, kontakOrtu: string)

  predicate Keep(s: Siswa, term: string, kelasFilter: string) {
    && (Includes(ToLower(s.namaSiswa), ToLower(term)) || Includes(ToLower(s.nisn), ToLower(term)))
    && (kelasFilter == "" || s.kelas == kelasFilter)
  }

  /** `filteredSiswa`. */
  function FilterSiswa(rows: seq<Siswa>, term: string, kelasFilter: string): seq<Siswa> {
    Seqs.Filter(rows, s => Keep(s, term, kelasFilter))
  }

  /** A row is shown exactly when its name or NISN contains the search term,
      ignoring case, and the class filter is empty or names its class. */
  lemma FilterSiswaMembers(rows: seq<Siswa>, term: string, kelasFilter: string, s: Siswa)
    ensures s in FilterSiswa(rows, term, kelasFilter) <==>
      && s in rows
      && (ContainsIgnoringCase(s.namaSiswa, term) || ContainsIgnoringCase(s.nisn, term))
      && (kelasFilter == "" || s.kelas == kelasFilter)
  {
    Seqs.FilterMembers(rows, s => Keep(s, term, kelasFilter), s);
    SearchIgnoresCase(s.namaSiswa, term);
    SearchIgnoresCase(s.nisn, term);
  }

  /** The shown rows keep the loaded order. */
  lemma FilterSiswaAppend(a: seq<Siswa>, b: seq<Siswa>, term: string, kelasFilter: string)
    ensures FilterSiswa(a + b, term, kelasFilter) == FilterSiswa(a, term, kelasFilter) + FilterSiswa(b, term, kelasFilter)
  {
    Seqs.FilterAppend(a, b, s => Keep(s, term, kelasFilter));
  }

  /** With an empty search term and no class chosen every row is shown. */
  lemma FilterSiswaNoCriteria(rows: seq<Siswa>)
    ensures FilterSiswa(rows, "", "") == rows
  {
    forall i | 0 <= i < |rows| ensures Keep(rows[i], "", "") {
      IncludesEmpty(ToLower(rows[i].namaSiswa));
    }
    Seqs.FilterKeepsAll(rows, s => Keep(s, "", ""));
  }

  function Classes(rows: seq<Siswa>): (r: seq<string>)
    ensures |r| == |rows|
    ensures forall i :: 0 <= i < |rows| ==> r[i] == rows[i].kelas
  {
    seq(|rows|, i requires 0 <= i < |rows| => rows[i].kelas)
  }

  /** `uniqueKelas`: `Array.from(new Set(siswa.map(s => s.kelas))).sort()`. */
  function UniqueKelas(rows: seq<Siswa>): seq<string> {
    Seqs.SortedUnique(Classes(rows))
  }

  predicate HasClass(rows: seq<Siswa>, k: string) {
    exists s :: s in rows && s.kelas == k
  }

  /** The filter's options are strictly sorted and are exactly the classes of the loaded rows. */
  lemma UniqueKelasSpec(rows: seq<Siswa>)
    ensures Seqs.StrictlySorted(UniqueKelas(rows))
    ensures forall k :: k in UniqueKelas(rows) <==> HasClass(rows, k)
  {
    var cs := Classes(rows);
    Seqs.SortedUniqueSpec(cs);
    forall k ensures k in cs <==> HasClass(rows, k) {
      if k in cs {
        var i :| 0 <= i < |cs| && cs[i] == k;
        assert rows[i] in rows;
      }
      if HasClass(rows, k) {
        var s :| s in rows && s.kelas == k;
        var i :| 0 <= i < |rows| && rows[i] == s;
        assert cs[i] == k;
      }
    }
  }

  /** No other list is strictly sorted and holds exactly those classes. */
  lemma UniqueKelasIsUnique(rows: seq<Siswa>, options: seq<string>)
    requires Seqs.StrictlySorted(options)
    requires forall k :: k in options <==> HasClass(rows, k)
    ensures options == UniqueKelas(rows)
  {
    UniqueKelasSpec(rows);
    Seqs.StrictlySortedUnique(options, UniqueKelas(rows));
  }
}
