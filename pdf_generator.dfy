/** The pure parts of the letter generator: filling a template's bracketed
    placeholders from the case data, and canonicalising a parent's phone number
    into the `62…` form the messaging network expects. Laying the letter out
    as a PDF is not modelled; the approval module takes it as an oracle. */
module PdfGenerator {
  import opened Strings

  /** An instant as the source reads it: `getFullYear()`, `getMonth()` (0 for January) and the day. */
  datatype Date = Date(year: int, month: int, day: int)

  datatype SiswaData = SiswaData(namaSiswa: string, nisn: string, kelas: string, kontakOrtu: string)

  datatype GuruData = GuruData(namaGuru: string, nip: string)

  datatype PengaduanData = PengaduanData(
    idPengaduan: int,
    tglPengaduan: Date,
    deskripsiMasalah: string,
    statusLaporan: string)

  datatype TindakLanjutData = TindakLanjutData(tglProses: Date, catatanAdmin: string, fileSurat: string)

  datatype TemplateData = TemplateData(namaTemplate: string, isiTemplate: string)

  /** Everything the letter is made from. */
  datatype ComplaintLetterData = ComplaintLetterData(
    siswa: SiswaData,
    guru: GuruData,
    pengaduan: PengaduanData,
    tindakLanjut: TindakLanjutData,
    template: TemplateData)

  // ---------------------------------------------------------------------------
  // Global replacement

  /** `s.replace(/pat/g, v)` for a literal pattern: a left-to-right scan that replaces
      non-overlapping occurrences and never rescans the inserted text. Replacement
      strings are taken literally (no `$` patterns). */
  function ReplaceAll(s: string, pat: string, v: string): string
    requires pat != []
    decreases |s|
  {
    if s == [] then []
    else if StartsWith(s, pat) then v + ReplaceAll(s[|pat|..], pat, v)
    else [s[0]] + ReplaceAll(s[1..], pat, v)
  }

  /** Text without an opening bracket: no placeholder can start inside it. */
  predicate PlainText(s: string) {
    forall i :: 0 <= i < |s| ==> s[i] != '['
  }

  lemma OccursShift(s: string, pat: string, i: int)
    requires s != [] && 0 <= i
    ensures OccursAt(s[1..], pat, i) <==> OccursAt(s, pat, i + 1)
  {
    if i + |pat| <= |s| - 1 {
      assert s[1..][i..i + |pat|] == s[i + 1..i + 1 + |pat|];
    }
  }

  lemma {:induction false} ReplaceAllAbsent(s: string, pat: string, v: string)
    requires pat != []
    requires forall i :: !OccursAt(s, pat, i)
    ensures ReplaceAll(s, pat, v) == s
    decreases |s|
  {
    if s != [] {
      assert !OccursAt(s, pat, 0);
      forall i | 0 <= i ensures OccursAt(s[1..], pat, i) <==> OccursAt(s, pat, i + 1) {
        OccursShift(s, pat, i);
      }
      ReplaceAllAbsent(s[1..], pat, v);
      assert [s[0]] + s[1..] == s;
    }
  }

  lemma {:induction false} ReplaceAllPlainPrefix(x: string, y: string, pat: string, v: string)
    requires pat != [] && pat[0] == '['
    requires PlainText(x)
    ensures ReplaceAll(x + y, pat, v) == x + ReplaceAll(y, pat, v)
    decreases |x|
  {
    if x != [] {
      assert (x + y)[0] == x[0] != '[';
      assert !StartsWith(x + y, pat);
      assert (x + y)[1..] == x[1..] + y;
      assert PlainText(x[1..]) by {
        forall i | 0 <= i < |x| - 1 ensures x[1..][i] == x[i + 1] { }
      }
      ReplaceAllPlainPrefix(x[1..], y, pat, v);
      assert [x[0]] + (x[1..] + ReplaceAll(y, pat, v)) == x + ReplaceAll(y, pat, v);
    } else {
      assert x + y == y;
    }
  }

  lemma ReplaceAllAtPattern(y: string, pat: string, v: string)
    requires pat != []
    ensures ReplaceAll(pat + y, pat, v) == v + ReplaceAll(y, pat, v)
  {
    assert StartsWith(pat + y, pat);
    assert (pat + y)[|pat|..] == y;
  }

  // ---------------------------------------------------------------------------
  // The thirteen placeholders

  datatype Placeholder =
    | NamaSiswa | Nisn | Kelas | KontakOrtu | NamaGuru | NipGuru | TanggalPelaporan
    | DeskripsiMasalah | TindakLanjut | NomorSurat | TanggalSurat | TanggalHariIni | Tahun

  function Name(p: Placeholder): string {
    match p
    case NamaSiswa => "NAMA_SISWA"
    case Nisn => "NISN"
    case Kelas => "KELAS"
    case KontakOrtu => "KONTAK_ORTU"
    case NamaGuru => "NAMA_GURU"
    case NipGuru => "NIP_GURU"
    case TanggalPelaporan => "TANGGAL_PELAPORAN"
    case DeskripsiMasalah => "DESKRIPSI_MASALAH"
    case TindakLanjut => "TINDAK_LANJUT"
    case NomorSurat => "NOMOR_SURAT"
    case TanggalSurat => "TANGGAL_SURAT"
    case TanggalHariIni => "TANGGAL_HARI_INI"
    case Tahun => "TAHUN"
  }

  /** The token as it is written in a template, brackets included. */
  function Token(p: Placeholder): string {
    "[" + Name(p) + "]"
  }

  /** The order in which the source applies its replacements. */
  const Chain: seq<Placeholder> := [
    NamaSiswa, Nisn, Kelas, KontakOrtu, NamaGuru, NipGuru, TanggalPelaporan,
    DeskripsiMasalah, TindakLanjut, NomorSurat, TanggalSurat, TanggalHariIni, Tahun]

  /** What each placeholder stands for; `formatDate` is the locale's long date format. */
  function FieldValue(p: Placeholder, data: ComplaintLetterData, now: Date, formatDate: Date -> string): string {
    match p
    case NamaSiswa => data.siswa.namaSiswa
    case Nisn => data.siswa.nisn
    case Kelas => data.siswa.kelas
    case KontakOrtu => data.siswa.kontakOrtu
    case NamaGuru => data.guru.namaGuru
    case NipGuru => data.guru.nip
    case TanggalPelaporan => formatDate(data.pengaduan.tglPengaduan)
    case DeskripsiMasalah => data.pengaduan.deskripsiMasalah
    case TindakLanjut => data.tindakLanjut.catatanAdmin
    case NomorSurat => data.tindakLanjut.fileSurat
    case TanggalSurat => formatDate(data.tindakLanjut.tglProses)
    case TanggalHariIni => formatDate(now)
    case Tahun => IntToString(now.year)
  }

  function Values(data: ComplaintLetterData, now: Date, formatDate: Date -> string): Placeholder -> string {
    p => FieldValue(p, data, now, formatDate)
  }

  /** Applies the replacements of `chain`, in order, each to the result of the previous one. */
  function ApplyChain(s: string, chain: seq<Placeholder>, val: Placeholder -> string): string
    decreases |chain|
  {
    if chain == [] then s
    else ApplyChain(ReplaceAll(s, Token(chain[0]), val(chain[0])), chain[1..], val)
  }

  /** `PDFGenerator.replacePlaceholders`. */
  function ReplacePlaceholders(template: string, data: ComplaintLetterData, now: Date, formatDate: Date -> string): string {
    ApplyChain(template, Chain, Values(data, now, formatDate))
  }

  // ---------------------------------------------------------------------------
  // Shape of the tokens

  lemma NameShape(p: Placeholder)
    ensures |Name(p)| >= 4
    ensures forall i :: 0 <= i < |Name(p)| ==> 'A' <= Name(p)[i] <= 'Z' || Name(p)[i] == '_'
  {
  }

  lemma NameInjective(p: Placeholder, q: Placeholder)
    requires Name(p) == Name(q)
    ensures p == q
  {
  }

  /** A token opens with its only `[` and closes with its only `]`. */
  lemma TokenShape(p: Placeholder)
    ensures |Token(p)| >= 6
    ensures Token(p)[0] == '[' && PlainText(Token(p)[1..])
    ensures Token(p)[|Token(p)| - 1] == ']'
    ensures forall i :: 0 <= i < |Token(p)| - 1 ==> Token(p)[i] != ']'
  {
    NameShape(p);
    var t := Token(p);
    forall i | 1 <= i < |t| - 1 ensures t[i] == Name(p)[i - 1] { }
  }

  /** A text that starts with one token starts with no other. */
  lemma TokenPrefixUnique(p: Placeholder, q: Placeholder, rest: string)
    ensures StartsWith(Token(q) + rest, Token(p)) ==> p == q
  {
    var tp, tq := Token(p), Token(q);
    TokenShape(p);
    TokenShape(q);
    if StartsWith(tq + rest, tp) {
      var m := if |tp| <= |tq| then |tp| else |tq|;
      assert tp[m - 1] == (tq + rest)[m - 1] == tq[m - 1];
      assert tp[m - 1] == ']' && tq[m - 1] == ']';
      assert |tp| == |tq|;
      assert tp == (tq + rest)[..|tp|] == tq;
      assert Name(p) == tp[1..|tp| - 1] == Name(q);
      NameInjective(p, q);
    }
  }

  /** A text that opens with `[` and has no other `[`, and at whose start the
      pattern does not occur, is kept as it is. */
  lemma ReplaceAllBracketPrefix(t: string, y: string, pat: string, v: string)
    requires pat != [] && pat[0] == '['
    requires t != [] && PlainText(t[1..]) && !StartsWith(t + y, pat)
    ensures ReplaceAll(t + y, pat, v) == t + ReplaceAll(y, pat, v)
  {
    assert (t + y)[1..] == t[1..] + y;
    ReplaceAllPlainPrefix(t[1..], y, pat, v);
    assert [t[0]] + t[1..] == t;
  }

  lemma ReplaceAllOtherToken(p: Placeholder, q: Placeholder, y: string, v: string)
    requires p != q
    ensures ReplaceAll(Token(q) + y, Token(p), v) == Token(q) + ReplaceAll(y, Token(p), v)
  {
    TokenShape(p);
    TokenShape(q);
    TokenPrefixUnique(p, q, y);
    ReplaceAllBracketPrefix(Token(q), y, Token(p), v);
  }

  // ---------------------------------------------------------------------------
  // Templates as literal text interleaved with placeholders

  datatype Piece = Text(text: string) | Slot(p: Placeholder)

  /** The template as written: every slot appears as its token. */
  function TemplateText(ps: seq<Piece>): string
    decreases |ps|
  {
    if ps == [] then []
    else (match ps[0] case Text(t) => t case Slot(p) => Token(p)) + TemplateText(ps[1..])
  }

  /** The letter the template describes: every slot replaced by its value. */
  function Filled(ps: seq<Piece>, val: Placeholder -> string): string
    decreases |ps|
  {
    if ps == [] then []
    else (match ps[0] case Text(t) => t case Slot(p) => val(p)) + Filled(ps[1..], val)
  }

  /** The text after the placeholders in `done` have been filled. */
  function Partial(ps: seq<Piece>, done: set<Placeholder>, val: Placeholder -> string): string
    decreases |ps|
  {
    if ps == [] then []
    else
      (match ps[0] case Text(t) => t case Slot(p) => if p in done then val(p) else Token(p))
      + Partial(ps[1..], done, val)
  }

  predicate TextsPlain(ps: seq<Piece>) {
    forall i :: 0 <= i < |ps| && ps[i].Text? ==> PlainText(ps[i].text)
  }

  predicate SlotValuesPlain(ps: seq<Piece>, val: Placeholder -> string) {
    forall i :: 0 <= i < |ps| && ps[i].Slot? ==> PlainText(val(ps[i].p))
  }

  lemma {:induction false} PartialNone(ps: seq<Piece>, val: Placeholder -> string)
    ensures Partial(ps, {}, val) == TemplateText(ps)
    decreases |ps|
  {
    if ps != [] {
      PartialNone(ps[1..], val);
    }
  }

  lemma {:induction false} PartialAll(ps: seq<Piece>, done: set<Placeholder>, val: Placeholder -> string)
    requires forall p :: p in done
    ensures Partial(ps, done, val) == Filled(ps, val)
    decreases |ps|
  {
    if ps != [] {
      PartialAll(ps[1..], done, val);
    }
  }

  /** One replacement of the chain fills exactly the slots of its placeholder. */
  lemma {:induction false} ReplaceStep(ps: seq<Piece>, done: set<Placeholder>, val: Placeholder -> string, p: Placeholder)
    requires p !in done
    requires TextsPlain(ps) && SlotValuesPlain(ps, val)
    ensures ReplaceAll(Partial(ps, done, val), Token(p), val(p)) == Partial(ps, done + {p}, val)
    decreases |ps|
  {
    TokenShape(p);
    if ps != [] {
      var rest := Partial(ps[1..], done, val);
      assert TextsPlain(ps[1..]) && SlotValuesPlain(ps[1..], val) by {
        forall i | 0 <= i < |ps| - 1 ensures ps[1..][i] == ps[i + 1] { }
      }
      ReplaceStep(ps[1..], done, val, p);
      match ps[0]
      case Text(t) =>
        assert PlainText(t) by { assert ps[0].Text?; }
        ReplaceAllPlainPrefix(t, rest, Token(p), val(p));
      case Slot(q) =>
        if q in done {
          assert PlainText(val(q)) by { assert ps[0].Slot?; }
          ReplaceAllPlainPrefix(val(q), rest, Token(p), val(p));
        } else if q == p {
          ReplaceAllAtPattern(rest, Token(p), val(p));
        } else {
          ReplaceAllOtherToken(p, q, rest, val(p));
        }
    }
  }

  function ChainSet(chain: seq<Placeholder>): set<Placeholder>
    decreases |chain|
  {
    if chain == [] then {} else {chain[0]} + ChainSet(chain[1..])
  }

  /** A chain of distinct, not yet applied replacements fills the slots of all its placeholders. */
  lemma {:induction false} ChainStep(ps: seq<Piece>, done: set<Placeholder>, chain: seq<Placeholder>, val: Placeholder -> string)
    requires TextsPlain(ps) && SlotValuesPlain(ps, val)
    requires forall i :: 0 <= i < |chain| ==> chain[i] !in done
    requires forall i, j :: 0 <= i < j < |chain| ==> chain[i] != chain[j]
    ensures ApplyChain(Partial(ps, done, val), chain, val) == Partial(ps, done + ChainSet(chain), val)
    decreases |chain|
  {
    if chain != [] {
      var p := chain[0];
      ReplaceStep(ps, done, val, p);
      var tail := chain[1..];
      forall i | 0 <= i < |tail| ensures tail[i] !in done + {p} {
        assert tail[i] == chain[i + 1];
      }
      forall i, j | 0 <= i < j < |tail| ensures tail[i] != tail[j] {
        assert tail[i] == chain[i + 1] && tail[j] == chain[j + 1];
      }
      ChainStep(ps, done + {p}, tail, val);
      assert done + {p} + ChainSet(tail) == done + ChainSet(chain);
    } else {
      assert done + ChainSet(chain) == done;
    }
  }

  lemma {:induction false} ChainSetAll(chain: seq<Placeholder>)
    ensures forall p :: p in chain <==> p in ChainSet(chain)
    decreases |chain|
  {
    if chain != [] {
      ChainSetAll(chain[1..]);
      assert chain == [chain[0]] + chain[1..];
    }
  }

  lemma ChainCoversAll()
    ensures forall p :: p in Chain
    ensures forall i, j :: 0 <= i < j < |Chain| ==> Chain[i] != Chain[j]
  {
    forall p: Placeholder ensures p in Chain {
      match p
      case NamaSiswa => assert Chain[0] == p;
      case Nisn => assert Chain[1] == p;
      case Kelas => assert Chain[2] == p;
      case KontakOrtu => assert Chain[3] == p;
      case NamaGuru => assert Chain[4] == p;
      case NipGuru => assert Chain[5] == p;
      case TanggalPelaporan => assert Chain[6] == p;
      case DeskripsiMasalah => assert Chain[7] == p;
      case TindakLanjut => assert Chain[8] == p;
      case NomorSurat => assert Chain[9] == p;
      case TanggalSurat => assert Chain[10] == p;
      case TanggalHariIni => assert Chain[11] == p;
      case Tahun => assert Chain[12] == p;
    }
  }

  /** Every occurrence of every token is replaced by its field, whatever the
      number of occurrences, as long as neither the literal text nor the values
      used contain a `[` that could start a token. */
  lemma FillsEveryPlaceholder(ps: seq<Piece>, data: ComplaintLetterData, now: Date, formatDate: Date -> string)
    requires TextsPlain(ps)
    requires forall i :: 0 <= i < |ps| && ps[i].Slot? ==> PlainText(FieldValue(ps[i].p, data, now, formatDate))
    ensures ReplacePlaceholders(TemplateText(ps), data, now, formatDate)
         == Filled(ps, Values(data, now, formatDate))
  {
    var val := Values(data, now, formatDate);
    assert SlotValuesPlain(ps, val);
    ChainCoversAll();
    PartialNone(ps, val);
    ChainStep(ps, {}, Chain, val);
    ChainSetAll(Chain);
    PartialAll(ps, {} + ChainSet(Chain), val);
  }

  lemma {:induction false} ChainAbsent(s: string, chain: seq<Placeholder>, val: Placeholder -> string)
    requires forall p, i :: !OccursAt(s, Token(p), i)
    ensures ApplyChain(s, chain, val) == s
    decreases |chain|
  {
    if chain != [] {
      TokenShape(chain[0]);
      ReplaceAllAbsent(s, Token(chain[0]), val(chain[0]));
      ChainAbsent(s, chain[1..], val);
    }
  }

  /** A template in which none of the thirteen tokens occurs is returned as it is;
      in particular bracketed words that are not tokens are left alone. */
  lemma NoTokenUnchanged(template: string, data: ComplaintLetterData, now: Date, formatDate: Date -> string)
    requires forall p, i :: !OccursAt(template, Token(p), i)
    ensures ReplacePlaceholders(template, data, now, formatDate) == template
  {
    ChainAbsent(template, Chain, Values(data, now, formatDate));
  }

  /** The replacements run in sequence: a student name that is itself the NISN
      token is replaced again, by the NISN, one step later. */
  lemma LaterTokenInValueIsReplaced(data: ComplaintLetterData, now: Date, formatDate: Date -> string)
    requires data.siswa.namaSiswa == Token(Nisn)
    requires PlainText(data.siswa.nisn)
    ensures ReplacePlaceholders(Token(NamaSiswa), data, now, formatDate) == data.siswa.nisn
  {
    var val := Values(data, now, formatDate);
    ReplaceAllAtPattern([], Token(NamaSiswa), val(NamaSiswa));
    assert Token(NamaSiswa) + [] == Token(NamaSiswa);
    var afterFirst := ReplaceAll(Token(NamaSiswa), Token(NamaSiswa), val(NamaSiswa));
    assert afterFirst == Token(Nisn);
    var ps := [Slot(Nisn)];
    assert Partial(ps, {}, val) == Token(Nisn);
    ChainCoversAll();
    var tail := Chain[1..];
    forall i, j | 0 <= i < j < |tail| ensures tail[i] != tail[j] {
      assert tail[i] == Chain[i + 1] && tail[j] == Chain[j + 1];
    }
    ChainStep(ps, {}, tail, val);
    assert Nisn in ChainSet(tail) by { assert tail[0] == Nisn; }
    assert ReplacePlaceholders(Token(NamaSiswa), data, now, formatDate) == ApplyChain(afterFirst, tail, val);
  }

  // ---------------------------------------------------------------------------
  // Phone numbers

  predicate IsPhoneChar(c: char) {
    IsDigit(c) || c == '+'
  }

  predicate PhoneChars(s: string) {
    forall i :: 0 <= i < |s| ==> IsPhoneChar(s[i])
  }

  /** `s.replace(/[^\d+]/g, '')`. */
  function StripPhone(s: string): string
    decreases |s|
  {
    if s == [] then []
    else (if IsPhoneChar(s[0]) then [s[0]] else []) + StripPhone(s[1..])
  }

  lemma {:induction false} StripPhoneChars(s: string)
    ensures PhoneChars(StripPhone(s))
    decreases |s|
  {
    if s != [] {
      StripPhoneChars(s[1..]);
    }
  }

  lemma {:induction false} StripPhoneKeeps(s: string)
    requires PhoneChars(s)
    ensures StripPhone(s) == s
    decreases |s|
  {
    if s != [] {
      assert PhoneChars(s[1..]) by {
        forall i | 0 <= i < |s| - 1 ensures s[1..][i] == s[i + 1] { }
      }
      StripPhoneKeeps(s[1..]);
      assert [s[0]] + s[1..] == s;
    }
  }

  /** `PDFGenerator.formatPhoneNumber`, also the target computation of `sendMessage`. */
  function FormatPhoneNumber(phoneNumber: string): (r: string)
    ensures PhoneChars(r)
    ensures !StartsWith(StripPhone(phoneNumber), "+") ==> StartsWith(r, "62")
  {
    var f := StripPhone(phoneNumber);
    StripPhoneChars(phoneNumber);
    if StartsWith(f, "+") then f[1..]
    else if StartsWith(f, "0") then "62" + f[1..]
    else if StartsWith(f, "62") then f
    else "62" + f
  }

  /** The four branches of the normaliser, on the stripped number. */
  lemma FormatPhoneCases(phoneNumber: string)
    ensures var f := StripPhone(phoneNumber);
      && (StartsWith(f, "+") ==> FormatPhoneNumber(phoneNumber) == f[1..])
      && (StartsWith(f, "0") ==> FormatPhoneNumber(phoneNumber) == "62" + f[1..])
      && (StartsWith(f, "62") ==> FormatPhoneNumber(phoneNumber) == f)
      && (!StartsWith(f, "+") && !StartsWith(f, "0") && !StartsWith(f, "62")
          ==> FormatPhoneNumber(phoneNumber) == "62" + f)
  {
  }

  /** Normalising a normalised number changes nothing, when the stripped input did not start with `+`. */
  lemma FormatPhoneIdempotent(phoneNumber: string)
    requires !StartsWith(StripPhone(phoneNumber), "+")
    ensures FormatPhoneNumber(FormatPhoneNumber(phoneNumber)) == FormatPhoneNumber(phoneNumber)
  {
    var r := FormatPhoneNumber(phoneNumber);
    StripPhoneKeeps(r);
    assert r[0] == '6';
    assert !StartsWith(r, "+") && !StartsWith(r, "0");
  }

  /** An empty number becomes the bare country code... */
  lemma FormatPhoneEmpty(s: string)
    requires s == ""
    ensures FormatPhoneNumber(s) == "62"
  {
  }

  /** ...and a `+` that is not in front survives. */
  lemma FormatPhoneInnerPlus(s: string)
    requires s == "0+1"
    ensures FormatPhoneNumber(s) == "62+1"
  {
    StripPhoneKeeps(s);
    assert StartsWith(s, "0");
    assert s[1..] == "+1";
  }

  // The examples below take the number as a parameter fixed by `requires`:
  // stated on a literal, the verifier would unfold `StripPhone` character by character.

  lemma FormatPhoneLocal(s: string)
    requires s == "08123456789"
    ensures FormatPhoneNumber(s) == "628123456789"
  {
    StripPhoneKeeps(s);
    assert StartsWith(s, "0");
    assert s[1..] == "8123456789";
  }

  lemma FormatPhonePlus(s: string)
    requires s == "+6281234567"
    ensures FormatPhoneNumber(s) == "6281234567"
  {
    StripPhoneKeeps(s);
    assert StartsWith(s, "+");
    assert s[1..] == "6281234567";
  }

  lemma FormatPhoneBare(s: string)
    requires s == "81234567"
    ensures FormatPhoneNumber(s) == "6281234567"
  {
    StripPhoneKeeps(s);
    assert !StartsWith(s, "+") && !StartsWith(s, "0") && !StartsWith(s, "62");
  }

  lemma {:induction false} StripPhoneAppend(a: string, b: string)
    ensures StripPhone(a + b) == StripPhone(a) + StripPhone(b)
    decreases |a|
  {
    if a != [] {
      assert (a + b)[0] == a[0];
      assert (a + b)[1..] == a[1..] + b;
      StripPhoneAppend(a[1..], b);
      var h := if IsPhoneChar(a[0]) then [a[0]] else [];
      assert h + (StripPhone(a[1..]) + StripPhone(b)) == (h + StripPhone(a[1..])) + StripPhone(b);
    } else {
      assert a + b == b;
    }
  }
}
