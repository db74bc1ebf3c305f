/** The approval endpoint (`POST /api/tindak-lanjut`): validates the request
    against the store in a fixed order, records the follow-up with its letter
    number, marks the case approved, then makes a best-effort attempt to render
    the letter and send it to the parent. The approval is reported as created
    whatever happens to the delivery. The store is three in-memory tables, the
    clock is one instant `now`, the PDF layout engine is an oracle, and the
    messaging session is the service class. */
module TindakLanjutRoute {
  import opened Wrappers
  import opened Strings
  import opened WhatsApp
  import PdfGenerator

  type Date = PdfGenerator.Date

  /** A complaint case with the student and teacher it concerns; its id is its key in the store. */
  datatype PengaduanRow = PengaduanRow(
    tglPengaduan: Date,
    deskripsiMasalah: string,
    statusLaporan: string,
    siswa: PdfGenerator.SiswaData,
    guru: PdfGenerator.GuruData)

  /** A follow-up record: at most one per case, keyed by the case's id. */
  datatype TindakLanjutRow = TindakLanjutRow(
    tglProses: Date,
    fileSurat: string,
    catatanAdmin: string,
    idPengaduan: int,
    idUser: int,
    idTemplate: int)

  const UniqueViolation: string := "Unique constraint failed on the fields: (`id_pengaduan`)"
  const RecordNotFound: string := "Record to update not found."

  /** The three tables the endpoint touches. A write may be rejected by the
      database for reasons of its own: `fault` carries that rejection's message. */
  class Store {
    var pengaduan: map<int, PengaduanRow>
    var tindakLanjut: map<int, TindakLanjutRow>
    var templates: map<int, PdfGenerator.TemplateData>

    constructor (pengaduan: map<int, PengaduanRow>, tindakLanjut: map<int, TindakLanjutRow>,
                 templates: map<int, PdfGenerator.TemplateData>)
      ensures this.pengaduan == pengaduan && this.tindakLanjut == tindakLanjut && this.templates == templates
    {
      this.pengaduan := pengaduan;
      this.tindakLanjut := tindakLanjut;
      this.templates := templates;
    }

    /** `prisma.tindakLanjut.create`: the case id is unique among follow-ups. */
    method CreateTindakLanjut(row: TindakLanjutRow, fault: Option<string>) returns (r: Outcome<string>)
      modifies this`tindakLanjut
      ensures fault.Some? ==> r == Fail(fault.value) && tindakLanjut == old(tindakLanjut)
      ensures fault.None? && row.idPengaduan in old(tindakLanjut) ==>
        r == Fail(UniqueViolation) && tindakLanjut == old(tindakLanjut)
      ensures fault.None? && row.idPengaduan !in old(tindakLanjut) ==>
        r == Pass && tindakLanjut == old(tindakLanjut)[row.idPengaduan := row]
    {
      if fault.Some? {
        return Fail(fault.value);
      }
      if row.idPengaduan in tindakLanjut {
        return Fail(UniqueViolation);
      }
      tindakLanjut := tindakLanjut[row.idPengaduan := row];
      r := Pass;
    }

    /** `prisma.pengaduan.update` of `status_laporan`. */
    method SetStatus(id: int, status: string, fault: Option<string>) returns (r: Outcome<string>)
      modifies this`pengaduan
      ensures fault.Some? ==> r == Fail(fault.value) && pengaduan == old(pengaduan)
      ensures fault.None? && id !in old(pengaduan) ==> r == Fail(RecordNotFound) && pengaduan == old(pengaduan)
      ensures fault.None? && id in old(pengaduan) ==>
        r == Pass && pengaduan == old(pengaduan)[id := old(pengaduan)[id].(statusLaporan := status)]
    {
      if fault.Some? {
        return Fail(fault.value);
      }
      if id !in pengaduan {
        return Fail(RecordNotFound);
      }
      pengaduan := pengaduan[id := pengaduan[id].(statusLaporan := status)];
      r := Pass;
    }
  }

  // ---------------------------------------------------------------------------
  // Request validation

  /** The request body after `parseInt`: a missing field is `None`. */
  datatype ApprovalRequest = ApprovalRequest(
    idPengaduan: Option<int>,
    idUser: Option<int>,
    idTemplate: Option<int>,
    catatanAdmin: Option<string>)

  /** JavaScript truthiness of an id: absent and `0` are falsy. */
  predicate TruthyId(x: Option<int>) {
    x.Some? && x.value != 0
  }

  predicate HasRequiredFields(req: ApprovalRequest) {
    && TruthyId(req.idPengaduan) && TruthyId(req.idUser) && TruthyId(req.idTemplate)
    && req.catatanAdmin.Some? && req.catatanAdmin.value != ""
  }

  datatype Rejection = Rejection(status: int, error: string)

  const FieldsRequired: string := "id_pengaduan, id_user, id_template, and catatan_admin are required"
  const CaseNotFound: string := "Pengaduan not found"
  const AlreadyExists: string := "Tindak lanjut already exists for this pengaduan"
  const TemplateNotFound: string := "Template not found"

  /** The four checks before any write, in the order the endpoint runs them;
      the first that fails decides the answer. */
  function Precheck(req: ApprovalRequest, pengaduan: map<int, PengaduanRow>,
                    tindakLanjut: map<int, TindakLanjutRow>, templates: map<int, PdfGenerator.TemplateData>)
    : (r: Result<(PengaduanRow, PdfGenerator.TemplateData), Rejection>)
    ensures r == Err(Rejection(400, FieldsRequired)) <==> !HasRequiredFields(req)
    ensures r == Err(Rejection(404, CaseNotFound)) <==>
      HasRequiredFields(req) && req.idPengaduan.value !in pengaduan
    ensures r == Err(Rejection(400, AlreadyExists)) <==>
      HasRequiredFields(req) && req.idPengaduan.value in pengaduan && req.idPengaduan.value in tindakLanjut
    ensures r == Err(Rejection(404, TemplateNotFound)) <==>
      && HasRequiredFields(req) && req.idPengaduan.value in pengaduan && req.idPengaduan.value !in tindakLanjut
      && req.idTemplate.value !in templates
    ensures r.Ok? ==>
      && HasRequiredFields(req) && req.idPengaduan.value in pengaduan && req.idPengaduan.value !in tindakLanjut
      && req.idTemplate.value in templates
      && r.value == (pengaduan[req.idPengaduan.value], templates[req.idTemplate.value])
  {
    if !HasRequiredFields(req) then Err(Rejection(400, FieldsRequired))
    else if req.idPengaduan.value !in pengaduan then Err(Rejection(404, CaseNotFound))
    else if req.idPengaduan.value in tindakLanjut then Err(Rejection(400, AlreadyExists))
    else if req.idTemplate.value !in templates then Err(Rejection(404, TemplateNotFound))
    else Ok((pengaduan[req.idPengaduan.value], templates[req.idTemplate.value]))
  }

  // ---------------------------------------------------------------------------
  // Letter number

  /** `String(id).padStart(3, '0') + "/SP/" + (getMonth() + 1) + "/" + getFullYear()`. */
  function FileNumber(id: int, now: Date): string {
    PadStart(IntToString(id), 3, '0') + "/" + DateSuffix(now)
  }

  /** The part after the id: the series, the unpadded month (1 to 12) and the year. */
  function DateSuffix(now: Date): string {
    "SP/" + IntToString(now.month + 1) + "/" + IntToString(now.year)
  }

  lemma FileNumberExample(now: Date)
    requires now.year == 2025 && now.month == 2
    ensures FileNumber(7, now) == "007/SP/3/2025"
  {
    assert NatToString(2025) == NatToString(202) + ['5'];
    assert NatToString(202) == NatToString(20) + ['2'];
    assert NatToString(20) == NatToString(2) + ['0'];
  }

  lemma {:induction false} NatToStringLength(n: nat)
    ensures n >= 10 ==> |NatToString(n)| >= 2
    ensures n >= 100 ==> |NatToString(n)| >= 3
  {
    if n >= 10 {
      NatToStringLength(n / 10);
    }
  }

  /** Ids of three digits or more are written in full: `padStart` never truncates. */
  lemma FileNumberKeepsLongIds(id: int, now: Date)
    requires id >= 100
    ensures FileNumber(id, now) == NatToString(id) + "/" + DateSuffix(now)
  {
    NatToStringLength(id);
    assert IntToString(id) == NatToString(id);
  }

  /** The text before the first `c`. */
  function TakeUntil(s: string, c: char): (r: string)
    ensures |r| <= |s|
    decreases |s|
  {
    if s == [] || s[0] == c then [] else [s[0]] + TakeUntil(s[1..], c)
  }

  lemma {:induction false} TakeUntilPrefix(x: string, c: char, y: string)
    requires forall i :: 0 <= i < |x| ==> x[i] != c
    ensures TakeUntil(x + [c] + y, c) == x
    decreases |x|
  {
    if x == [] {
      assert (x + [c] + y)[0] == c;
    } else {
      assert (x + [c] + y)[1..] == x[1..] + [c] + y;
      TakeUntilPrefix(x[1..], c, y);
    }
  }

  /** The zero-padded id a letter number starts with, and the id it denotes. */
  lemma PaddedId(id: nat)
    ensures AllDigits(PadStart(NatToString(id), 3, '0'))
    ensures DigitsValue(PadStart(NatToString(id), 3, '0')) == id
  {
    NatToStringValue(id);
    var s := NatToString(id);
    if |s| < 3 {
      LeadingZerosValue(3 - |s|, s);
    }
  }

  /** Distinct cases get distinct letter numbers, whatever the dates. */
  lemma FileNumberInjective(id1: int, now1: Date, id2: int, now2: Date)
    requires 0 <= id1 && 0 <= id2
    requires FileNumber(id1, now1) == FileNumber(id2, now2)
    ensures id1 == id2
  {
    var p1 := PadStart(NatToString(id1), 3, '0');
    var p2 := PadStart(NatToString(id2), 3, '0');
    PaddedId(id1);
    PaddedId(id2);
    var t1 := DateSuffix(now1);
    var t2 := DateSuffix(now2);
    assert FileNumber(id1, now1) == p1 + ['/'] + t1;
    assert FileNumber(id2, now2) == p2 + ['/'] + t2;
    TakeUntilPrefix(p1, '/', t1);
    TakeUntilPrefix(p2, '/', t2);
    assert p1 == p2;
  }

  // ---------------------------------------------------------------------------
  // Message and attachment

  /** The notification text addressed to the student's parent. */
  function NotificationMessage(namaSiswa: string): string {
    Salutation + namaSiswa + MessageBody
  }

  const Salutation: string := "Yth. Orang Tua/Wali dari "

  const MessageBody: string :=
    "\n\n"
    + "Dengan hormat, kami sampaikan surat pemberitahuan terkait pelanggaran yang dilakukan oleh putra/putri Bapak/Ibu.\n\n"
    + "Mohon untuk membaca surat terlampir dan memberikan perhatian lebih kepada putra/putri Bapak/Ibu.\n\n"
    + "Terima kasih atas perhatian dan kerjasamanya.\n\n"
    + "Hormat kami,\n"
    + "SMK Negeri 1 Example"

  /** The attachment's file name: whitespace runs of the name become `_`, the slashes of the number `-`. */
  function AttachmentName(namaSiswa: string, fileNumber: string): (r: string)
    ensures StartsWith(r, "Surat_Pemberitahuan_")
    ensures r != ""
  {
    "Surat_Pemberitahuan_" + ReplaceWhitespaceRuns(namaSiswa, "_") + "_" + ReplaceChar(fileNumber, '/', '-') + ".pdf"
  }

  predicate NoWhitespace(s: string) {
    forall i :: 0 <= i < |s| ==> !IsWhitespace(s[i])
  }

  predicate NoSlash(s: string) {
    forall i :: 0 <= i < |s| ==> s[i] != '/'
  }

  lemma {:induction false} WhitespaceRunsGone(s: string, sep: string)
    requires NoWhitespace(sep)
    ensures NoWhitespace(ReplaceWhitespaceRuns(s, sep))
    decreases |s|
  {
    if s == [] {
    } else if IsWhitespace(s[0]) {
      WhitespaceRunsGone(TrimStart(s), sep);
    } else {
      WhitespaceRunsGone(s[1..], sep);
    }
  }

  lemma {:induction false} WhitespaceRunsKeepPlain(s: string, sep: string)
    requires NoWhitespace(s)
    ensures ReplaceWhitespaceRuns(s, sep) == s
    decreases |s|
  {
    if s != [] {
      assert !IsWhitespace(s[0]);
      WhitespaceRunsKeepPlain(s[1..], sep);
    }
  }

  /** The attachment name holds no whitespace, and its letter-number part no slash;
      a name without whitespace is kept as it is. */
  lemma AttachmentNameShape(namaSiswa: string, fileNumber: string)
    ensures NoWhitespace(AttachmentName(namaSiswa, fileNumber)) <==> NoWhitespace(fileNumber)
    ensures NoSlash(ReplaceChar(fileNumber, '/', '-'))
    ensures NoWhitespace(namaSiswa) ==>
      AttachmentName(namaSiswa, fileNumber) ==
        "Surat_Pemberitahuan_" + namaSiswa + "_" + ReplaceChar(fileNumber, '/', '-') + ".pdf"
  {
    WhitespaceRunsGone(namaSiswa, "_");
    var a := "Surat_Pemberitahuan_";
    var n := ReplaceWhitespaceRuns(namaSiswa, "_");
    var f := ReplaceChar(fileNumber, '/', '-');
    var r := AttachmentName(namaSiswa, fileNumber);
    assert r == a + n + "_" + f + ".pdf";
    forall i | 0 <= i < |f| ensures r[|a| + |n| + 1 + i] == f[i] { }
    forall i | 0 <= i < |f| ensures IsWhitespace(f[i]) <==> IsWhitespace(fileNumber[i]) { }
    if NoWhitespace(fileNumber) {
      forall i | 0 <= i < |r| ensures !IsWhitespace(r[i]) {
        if i < |a| {
        } else if i < |a| + |n| {
          assert r[i] == n[i - |a|];
        } else if i == |a| + |n| {
        } else if i < |a| + |n| + 1 + |f| {
          assert r[i] == f[i - |a| - |n| - 1];
        }
      }
    }
    if NoWhitespace(namaSiswa) {
      WhitespaceRunsKeepPlain(namaSiswa, "_");
    }
  }

  lemma NoWhitespaceConcat(a: string, b: string)
    requires NoWhitespace(a) && NoWhitespace(b)
    ensures NoWhitespace(a + b)
  {
    forall i | 0 <= i < |a + b| ensures !IsWhitespace((a + b)[i]) {
      if i >= |a| {
        assert (a + b)[i] == b[i - |a|];
      }
    }
  }

  lemma IntToStringNoWhitespace(n: int)
    ensures NoWhitespace(IntToString(n))
  {
    NatToStringValue(if n < 0 then -n else n);
  }

  /** Letter numbers have no whitespace, so the attachment name has none. */
  lemma FileNumberNoWhitespace(id: int, now: Date)
    ensures NoWhitespace(FileNumber(id, now))
  {
    var s := IntToString(id);
    IntToStringNoWhitespace(id);
    IntToStringNoWhitespace(now.month + 1);
    IntToStringNoWhitespace(now.year);
    var padded := PadStart(s, 3, '0');
    if |s| < 3 {
      NoWhitespaceConcat(Repeat('0', 3 - |s|), s);
    }
    NoWhitespaceConcat("SP/", IntToString(now.month + 1));
    NoWhitespaceConcat("SP/" + IntToString(now.month + 1), "/");
    NoWhitespaceConcat("SP/" + IntToString(now.month + 1) + "/", IntToString(now.year));
    NoWhitespaceConcat(padded, "/");
    NoWhitespaceConcat(padded + "/", DateSuffix(now));
  }

  // ---------------------------------------------------------------------------
  // The endpoint

  /** What the response reports about the parent notification. */
  datatype Delivery = Delivery(sent: bool, error: Option<string>, phoneNumber: string)

  datatype ApprovalResponse =
    | Rejected(status: int, error: string)
    | Created(tindakLanjut: TindakLanjutRow, whatsapp: Delivery)

  function HttpStatus(r: ApprovalResponse): int {
    if r.Created? then 201 else r.status
  }

  const CreateFailed: string := "Failed to create tindak lanjut"
  const SendFailed: string := "Failed to send WhatsApp message"
  const NotConnected: string := "WhatsApp not connected. Please scan QR code in WhatsApp settings."
  const Approved: string := "Disetujui"

  /** `error.message || fallback`. */
  function OrDefault(message: string, fallback: string): string {
    if message == "" then fallback else message
  }

  /** The follow-up record the endpoint writes for a request that passed the checks. */
  function NewRecord(req: ApprovalRequest, now: Date): TindakLanjutRow
    requires HasRequiredFields(req)
  {
    TindakLanjutRow(now, FileNumber(req.idPengaduan.value, now), req.catatanAdmin.value,
                    req.idPengaduan.value, req.idUser.value, req.idTemplate.value)
  }

  /** What the letter is made from; the case is taken as it was read, before its status changed. */
  function LetterData(id: int, p: PengaduanRow, record: TindakLanjutRow, template: PdfGenerator.TemplateData)
    : PdfGenerator.ComplaintLetterData
  {
    PdfGenerator.ComplaintLetterData(
      p.siswa, p.guru,
      PdfGenerator.PengaduanData(id, p.tglPengaduan, p.deskripsiMasalah, p.statusLaporan),
      PdfGenerator.TindakLanjutData(record.tglProses, record.catatanAdmin, record.fileSurat),
      template)
  }

  /** The letter as `compose` lays it out, given its data and the body rendered from its template. */
  function Render(data: PdfGenerator.ComplaintLetterData, now: Date, formatDate: Date -> string,
                  compose: (PdfGenerator.ComplaintLetterData, string) -> Result<Bytes, string>)
    : Result<Bytes, string>
  {
    compose(data, PdfGenerator.ReplacePlaceholders(data.template.isiTemplate, data, now, formatDate))
  }

  /** The transport accepts both the text and the letter for this parent. */
  predicate DeliverySucceeds(b: Behaviour, phoneNumber: string) {
    b.lookupFault.None? && ChatId(phoneNumber) in b.registered && b.textFault.None? && b.mediaFault.None?
  }

  /** The messages a (possibly absent) client has delivered. */
  function OutboxOf(c: Client?): seq<Outgoing>
    reads c
  {
    if c == null then [] else c.outbox
  }

  /** What a ready session reports and delivers for one letter, given its client's
      `behaviour`: `sent` holds exactly when the transport takes both the text and
      the letter; each transport failure is reported with its message, or the
      fallback text when that is empty, and leaves delivered what was delivered up
      to it. `before` and `outbox` are what the client had delivered before and after. */
  predicate Transported(b: Behaviour, before: seq<Outgoing>, outbox: seq<Outgoing>, letter: Bytes,
                        siswa: PdfGenerator.SiswaData, fileNumber: string, d: Delivery)
  {
    var phone := siswa.kontakOrtu;
    var id := ChatId(phone);
    var text := TextMessage(id, NotificationMessage(siswa.namaSiswa));
    var media := MediaMessage(id, PdfMimeType, letter, AttachmentName(siswa.namaSiswa, fileNumber), PdfCaption);
    && (d.sent <==> DeliverySucceeds(b, phone))
    && (b.lookupFault.Some? ==>
          d.error == Some(OrDefault(b.lookupFault.value, SendFailed)) && outbox == before)
    && (b.lookupFault.None? && id !in b.registered ==>
          d.error == Some(ErrorMessage(NotRegistered(phone))) && outbox == before)
    && (b.lookupFault.None? && id in b.registered && b.textFault.Some? ==>
          d.error == Some(OrDefault(b.textFault.value, SendFailed)) && outbox == before)
    && (b.lookupFault.None? && id in b.registered && b.textFault.None? && b.mediaFault.Some? ==>
          d.error == Some(OrDefault(b.mediaFault.value, SendFailed)) && outbox == before + [text])
    && (d.sent ==> outbox == before + [text, media])
  }

  /** The delivery report, given the outcome of rendering the letter: a failed
      rendering, a session that is not ready or a missing client sends nothing;
      otherwise the transport decides, as `Transported` states. `before` is what
      the client had delivered before. */
  predicate Notified(svc: WhatsAppService, before: seq<Outgoing>, pdf: Result<Bytes, string>,
                     siswa: PdfGenerator.SiswaData, fileNumber: string, d: Delivery)
    reads svc, svc.client
  {
    && d.phoneNumber == siswa.kontakOrtu
    && (d.sent <==> d.error.None?)
    && (pdf.Err? ==> d.error == Some(OrDefault(pdf.error, SendFailed)))
    && (pdf.Ok? && !svc.isReady ==> d.error == Some(NotConnected))
    && (pdf.Err? || !svc.isReady ==>
          svc.client != null ==> svc.client.outbox == before)
    && (pdf.Ok? && svc.isReady && svc.client == null ==> d.error == Some(ErrorMessage(NotReady)))
    && (pdf.Ok? && svc.isReady && svc.client != null ==>
          Transported(svc.client.behaviour, before, svc.client.outbox, pdf.value, siswa, fileNumber, d))
  }

  /** The best-effort tail of the endpoint: send the rendered letter if the session is ready. */
  method Notify(svc: WhatsAppService, pdf: Result<Bytes, string>, siswa: PdfGenerator.SiswaData, fileNumber: string)
    returns (d: Delivery)
    modifies svc.client
    ensures svc.client == old(svc.client)
    ensures Notified(svc, old(OutboxOf(svc.client)), pdf, siswa, fileNumber, d)
  {
    var whatsappSent := false;
    var whatsappError: Option<string> := None;
    if pdf.Err? {
      whatsappError := Some(OrDefault(pdf.error, SendFailed));
    } else if svc.IsClientReady() {
      var message := NotificationMessage(siswa.namaSiswa);
      var filename := AttachmentName(siswa.namaSiswa, fileNumber);
      var sent := svc.SendMessage(siswa.kontakOrtu, message, Some(pdf.value), Some(filename));
      if sent.Fail? {
        whatsappError := Some(OrDefault(ErrorMessage(sent.error), SendFailed));
      } else {
        whatsappSent := true;
      }
    } else {
      whatsappError := Some(NotConnected);
    }
    d := Delivery(whatsappSent, whatsappError, siswa.kontakOrtu);
  }

  /** The letter is rendered from `data` and sent to the parent of its student. */
  method Deliver(svc: WhatsAppService, data: PdfGenerator.ComplaintLetterData, now: Date, formatDate: Date -> string,
                 compose: (PdfGenerator.ComplaintLetterData, string) -> Result<Bytes, string>)
    returns (d: Delivery)
    modifies svc.client
    ensures svc.client == old(svc.client)
    ensures Notified(svc, old(OutboxOf(svc.client)), Render(data, now, formatDate, compose),
                     data.siswa, data.tindakLanjut.fileSurat, d)
  {
    var body := PdfGenerator.ReplacePlaceholders(data.template.isiTemplate, data, now, formatDate);
    var pdf := compose(data, body);
    d := Notify(svc, pdf, data.siswa, data.tindakLanjut.fileSurat);
  }

  /** The endpoint once its checks have passed for case `p` and `template`: the
      follow-up is created, then the case approved, then the letter rendered and
      delivered. */
  method Commit(req: ApprovalRequest, store: Store, svc: WhatsAppService, p: PengaduanRow,
                template: PdfGenerator.TemplateData, now: Date, formatDate: Date -> string,
                compose: (PdfGenerator.ComplaintLetterData, string) -> Result<Bytes, string>,
                createFault: Option<string>, updateFault: Option<string>)
    returns (resp: ApprovalResponse)
    requires HasRequiredFields(req)
    requires req.idPengaduan.value in store.pengaduan && store.pengaduan[req.idPengaduan.value] == p
    requires req.idPengaduan.value !in store.tindakLanjut
    modifies store`pengaduan, store`tindakLanjut, svc.client
    ensures svc.client == old(svc.client)
    ensures var id := req.idPengaduan.value;
      && (createFault.Some? ==>
            && resp == Rejected(500, OrDefault(createFault.value, CreateFailed))
            && store.pengaduan == old(store.pengaduan) && store.tindakLanjut == old(store.tindakLanjut))
      && (createFault.None? ==> store.tindakLanjut == old(store.tindakLanjut)[id := NewRecord(req, now)])
      && (createFault.None? && updateFault.Some? ==>
            && resp == Rejected(500, OrDefault(updateFault.value, CreateFailed))
            && store.pengaduan == old(store.pengaduan))
      && (createFault.Some? || updateFault.Some? ==>
            svc.client != null ==> svc.client.outbox == old(svc.client.outbox))
    ensures createFault.None? && updateFault.None? ==>
      var id := req.idPengaduan.value;
      var record := NewRecord(req, now);
      var pdf := Render(LetterData(id, p, record, template), now, formatDate, compose);
      && store.pengaduan == old(store.pengaduan)[id := p.(statusLaporan := Approved)]
      && resp.Created? && resp.tindakLanjut == record
      && Notified(svc, old(OutboxOf(svc.client)), pdf, p.siswa, record.fileSurat, resp.whatsapp)
  {
    var id := req.idPengaduan.value;
    var record := NewRecord(req, now);
    var created := store.CreateTindakLanjut(record, createFault);
    if created.Fail? {
      return Rejected(500, OrDefault(created.error, CreateFailed));
    }
    var updated := store.SetStatus(id, Approved, updateFault);
    if updated.Fail? {
      return Rejected(500, OrDefault(updated.error, CreateFailed));
    }
    var delivery := Deliver(svc, LetterData(id, p, record, template), now, formatDate, compose);
    resp := Created(record, delivery);
  }

  /** `POST`: `compose` is the letter's layout engine, given the data and the body
      rendered from the template; `createFault` and `updateFault` are the
      database's rejections of the two writes, if any. Nothing is written unless
      every check passes, a failed second write leaves the first in place, the
      templates are never written, and once both writes succeed the approval is
      reported as created whatever happens to the delivery. */
  method Approve(req: ApprovalRequest, store: Store, svc: WhatsAppService, now: Date,
                 formatDate: Date -> string,
                 compose: (PdfGenerator.ComplaintLetterData, string) -> Result<Bytes, string>,
                 createFault: Option<string>, updateFault: Option<string>)
    returns (resp: ApprovalResponse)
    modifies store`pengaduan, store`tindakLanjut, svc.client
    ensures svc.client == old(svc.client)
    ensures store.templates == old(store.templates)
    ensures var pre := Precheck(req, old(store.pengaduan), old(store.tindakLanjut), old(store.templates));
      pre.Err? ==>
        && resp == Rejected(pre.error.status, pre.error.error)
        && store.pengaduan == old(store.pengaduan) && store.tindakLanjut == old(store.tindakLanjut)
        && (svc.client != null ==> svc.client.outbox == old(svc.client.outbox))
    ensures var pre := Precheck(req, old(store.pengaduan), old(store.tindakLanjut), old(store.templates));
      pre.Ok? ==>
        var id := req.idPengaduan.value;
        && (createFault.Some? ==>
              && resp == Rejected(500, OrDefault(createFault.value, CreateFailed))
              && store.pengaduan == old(store.pengaduan) && store.tindakLanjut == old(store.tindakLanjut))
        && (createFault.None? ==> store.tindakLanjut == old(store.tindakLanjut)[id := NewRecord(req, now)])
        && (createFault.None? && updateFault.Some? ==>
              && resp == Rejected(500, OrDefault(updateFault.value, CreateFailed))
              && store.pengaduan == old(store.pengaduan))
        && (createFault.Some? || updateFault.Some? ==>
              svc.client != null ==> svc.client.outbox == old(svc.client.outbox))
    ensures var pre := Precheck(req, old(store.pengaduan), old(store.tindakLanjut), old(store.templates));
      pre.Ok? && createFault.None? && updateFault.None? ==>
        var id := req.idPengaduan.value;
        var (p, template) := pre.value;
        var record := NewRecord(req, now);
        var pdf := Render(LetterData(id, p, record, template), now, formatDate, compose);
        && store.pengaduan == old(store.pengaduan)[id := p.(statusLaporan := Approved)]
        && resp.Created? && resp.tindakLanjut == record
        && Notified(svc, old(OutboxOf(svc.client)), pdf, p.siswa, record.fileSurat, resp.whatsapp)
  {
    var pre := Precheck(req, store.pengaduan, store.tindakLanjut, store.templates);
    if pre.Err? {
      return Rejected(pre.error.status, pre.error.error);
    }
    var (p, template) := pre.value;
    resp := Commit(req, store, svc, p, template, now, formatDate, compose, createFault, updateFault);
  }
}
