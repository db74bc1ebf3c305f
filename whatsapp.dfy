/** The messaging-session manager: one service object holding the transport
    client, the pending QR code and two flags, updated by its own operations and
    by the transport's event callbacks. The transport is a `Client` whose
    answers (failures, which numbers are registered) are fixed when it is
    created, and which records the messages it delivers. */
module WhatsApp {
  import opened Wrappers
  import opened Strings
  import PdfGenerator

  newtype byte = x: int | 0 <= x < 256

  /** The contents of a Node `Buffer`. */
  type Bytes = seq<byte>

  /** How the transport will answer: which of its calls reject (with the error's
      message) and which chat ids the network reports as registered. */
  datatype Behaviour = Behaviour(
    startFault: Option<string>,
    lookupFault: Option<string>,
    registered: set<string>,
    textFault: Option<string>,
    mediaFault: Option<string>,
    destroyFault: Option<string>)

  /** A message the transport has delivered. */
  datatype Outgoing =
    | TextMessage(chatId: string, body: string)
    | MediaMessage(chatId: string, mimeType: string, data: Bytes, filename: string, caption: string)

  /** The transport client (a whatsapp-web.js `Client`). */
  class Client {
    const behaviour: Behaviour
    /** Messages delivered so far, oldest first. */
    var outbox: seq<Outgoing>
    var started: bool
    var destroyed: bool

    constructor (behaviour: Behaviour)
      ensures this.behaviour == behaviour
      ensures outbox == [] && !started && !destroyed
    {
      this.behaviour := behaviour;
      outbox := [];
      started := false;
      destroyed := false;
    }

    /** `client.initialize()`. */
    method Start() returns (r: Outcome<string>)
      modifies this`started
      ensures r == if behaviour.startFault.Some? then Fail(behaviour.startFault.value) else Pass
      ensures started == (old(started) || r.Pass?)
    {
      if behaviour.startFault.Some? {
        r := Fail(behaviour.startFault.value);
      } else {
        started := true;
        r := Pass;
      }
    }

    /** `client.isRegisteredUser(chatId)`. */
    method IsRegisteredUser(chatId: string) returns (r: Result<bool, string>)
      ensures r == if behaviour.lookupFault.Some? then Err(behaviour.lookupFault.value)
                   else Ok(chatId in behaviour.registered)
    {
      if behaviour.lookupFault.Some? {
        r := Err(behaviour.lookupFault.value);
      } else {
        r := Ok(chatId in behaviour.registered);
      }
    }

    /** `client.sendMessage(chatId, content)`: a text or a media message. */
    method Send(m: Outgoing) returns (r: Outcome<string>)
      modifies this`outbox
      ensures var fault := if m.TextMessage? then behaviour.textFault else behaviour.mediaFault;
        && r == (if fault.Some? then Fail(fault.value) else Pass)
        && outbox == if r.Pass? then old(outbox) + [m] else old(outbox)
    {
      var fault := if m.TextMessage? then behaviour.textFault else behaviour.mediaFault;
      if fault.Some? {
        r := Fail(fault.value);
      } else {
        outbox := outbox + [m];
        r := Pass;
      }
    }

    /** `client.destroy()`. */
    method Destroy() returns (r: Outcome<string>)
      modifies this`destroyed
      ensures r == if behaviour.destroyFault.Some? then Fail(behaviour.destroyFault.value) else Pass
      ensures destroyed == (old(destroyed) || r.Pass?)
    {
      if behaviour.destroyFault.Some? {
        r := Fail(behaviour.destroyFault.value);
      } else {
        destroyed := true;
        r := Pass;
      }
    }
  }

  /** The snapshot `getStatus` returns. */
  datatype Status = Status(ready: bool, initializing: bool, hasQR: bool)

  datatype SessionError =
    | AlreadyInitializing
    | AlreadyConnected
    | NotReady
    | NotRegistered(phoneNumber: string)
    | TransportError(message: string)

  /** The `message` of the error the service throws. */
  function ErrorMessage(e: SessionError): string {
    match e
    case AlreadyInitializing => "WhatsApp is already initializing"
    case AlreadyConnected => "WhatsApp is already connected"
    case NotReady => "WhatsApp client is not ready. Please scan QR code first."
    case NotRegistered(phone) => "Number " + phone + " is not registered on WhatsApp"
    case TransportError(m) => m
  }

  const PdfCaption: string := "Surat Pemberitahuan Orang Tua"
  const PdfMimeType: string := "application/pdf"

  /** The chat a phone number is delivered to: the number normalised as the letter
      generator's `formatPhoneNumber` does, with the personal-chat suffix. */
  function ChatId(phoneNumber: string): (id: string)
    ensures StartsWith(id, PdfGenerator.FormatPhoneNumber(phoneNumber))
    ensures |id| == |PdfGenerator.FormatPhoneNumber(phoneNumber)| + 5 && id[|id| - 5..] == "@c.us"
  {
    PdfGenerator.FormatPhoneNumber(phoneNumber) + "@c.us"
  }

  /** Two numbers reach the same chat exactly when they normalise to the same number. */
  lemma ChatIdInjective(a: string, b: string)
    ensures ChatId(a) == ChatId(b) <==> PdfGenerator.FormatPhoneNumber(a) == PdfGenerator.FormatPhoneNumber(b)
  {
    var ia, ib := ChatId(a), ChatId(b);
    assert ia[..|ia| - 5] == PdfGenerator.FormatPhoneNumber(a);
    assert ib[..|ib| - 5] == PdfGenerator.FormatPhoneNumber(b);
  }

  /** `pdfBuffer && pdfFilename`: a buffer is always truthy, an empty file name is not. */
  predicate WantsAttachment(pdf: Option<Bytes>, filename: Option<string>) {
    pdf.Some? && filename.Some? && filename.value != ""
  }

  /** A data URL as `QRCode.toDataURL` produces it. */
  predicate IsDataUrl(s: string) {
    StartsWith(s, "data:")
  }

  class WhatsAppService {
    var client: Client?
    var qrCode: string
    var isReady: bool
    var isInitializing: bool

    constructor ()
      ensures client == null && qrCode == "" && !isReady && !isInitializing
    {
      client := null;
      qrCode := "";
      isReady := false;
      isInitializing := false;
    }

    /** `initialize`: refuses while initializing, or while a client is installed and
        ready; otherwise installs a fresh client and starts it. */
    method Initialize(behaviour: Behaviour) returns (r: Outcome<SessionError>)
      modifies this
      ensures old(isInitializing) ==> r == Fail(AlreadyInitializing) && unchanged(this)
      ensures !old(isInitializing) && old(client) != null && old(isReady) ==>
        r == Fail(AlreadyConnected) && unchanged(this)
      ensures !old(isInitializing) && !(old(client) != null && old(isReady)) ==>
        && client != null && fresh(client)
        && client.behaviour == behaviour && client.outbox == [] && !client.destroyed
        && qrCode == old(qrCode) && isReady == old(isReady)
        && (behaviour.startFault.None? ==> r == Pass && isInitializing && client.started)
        && (behaviour.startFault.Some? ==>
              r == Fail(TransportError(behaviour.startFault.value)) && !isInitializing && !client.started)
    {
      if isInitializing {
        return Fail(AlreadyInitializing);
      }
      if client != null && isReady {
        return Fail(AlreadyConnected);
      }
      isInitializing := true;
      var c := new Client(behaviour);
      client := c;
      var started := c.Start();
      if started.Fail? {
        isInitializing := false;
        return Fail(TransportError(started.error));
      }
      r := Pass;
    }

    /** The `qr` event: the encoder's data URL is stored; an encoding failure is only logged. */
    method OnQr(dataUrl: Option<string>)
      requires dataUrl.Some? ==> IsDataUrl(dataUrl.value)
      modifies this`qrCode
      ensures qrCode == if dataUrl.Some? then dataUrl.value else old(qrCode)
      ensures dataUrl.Some? ==> qrCode != ""
    {
      if dataUrl.Some? {
        qrCode := dataUrl.value;
      }
    }

    /** The `ready` event. */
    method OnReady()
      modifies this`isReady, this`isInitializing, this`qrCode
      ensures isReady && !isInitializing && qrCode == ""
      ensures client == old(client)
    {
      isReady := true;
      isInitializing := false;
      qrCode := "";
    }

    /** The `auth_failure` event: the client and a pending QR code stay. */
    method OnAuthFailure()
      modifies this`isReady, this`isInitializing
      ensures !isReady && !isInitializing
      ensures client == old(client) && qrCode == old(qrCode)
    {
      isReady := false;
      isInitializing := false;
    }

    /** The `disconnected` event: the client is dropped, a pending QR code stays. */
    method OnDisconnected()
      modifies this`isReady, this`isInitializing, this`client
      ensures !isReady && !isInitializing && client == null
      ensures qrCode == old(qrCode)
    {
      isReady := false;
      isInitializing := false;
      client := null;
    }

    function GetQRCode(): (qr: string)
      reads this
      ensures qr == qrCode
    {
      qrCode
    }

    function IsClientReady(): (ready: bool)
      reads this
      ensures ready == isReady
    {
      isReady
    }

    function IsClientInitializing(): (initializing: bool)
      reads this
      ensures initializing == isInitializing
    {
      isInitializing
    }

    function GetStatus(): (s: Status)
      reads this
      ensures s.ready == isReady && s.initializing == isInitializing
      ensures s.hasQR <==> qrCode != ""
    {
      Status(isReady, isInitializing, qrCode != "")
    }

    /** `sendMessage`: refuses unless a client is installed and ready; then checks
        that the target is registered, sends the text, and sends the PDF with its
        caption when both a buffer and a non-empty file name are given. The first
        transport failure ends it; what was delivered before stays delivered. */
    method SendMessage(phoneNumber: string, message: string, pdf: Option<Bytes>, filename: Option<string>)
      returns (r: Outcome<SessionError>)
      modifies client
      ensures client == old(client)
      ensures old(client) == null || !isReady ==> r == Fail(NotReady)
      ensures client != null && !isReady ==> client.outbox == old(client.outbox)
      ensures client != null && isReady ==>
        var b := client.behaviour;
        var id := ChatId(phoneNumber);
        var text := TextMessage(id, message);
        && (b.lookupFault.Some? ==>
              r == Fail(TransportError(b.lookupFault.value)) && client.outbox == old(client.outbox))
        && (b.lookupFault.None? && id !in b.registered ==>
              r == Fail(NotRegistered(phoneNumber)) && client.outbox == old(client.outbox))
        && (b.lookupFault.None? && id in b.registered && b.textFault.Some? ==>
              r == Fail(TransportError(b.textFault.value)) && client.outbox == old(client.outbox))
        && (b.lookupFault.None? && id in b.registered && b.textFault.None? && !WantsAttachment(pdf, filename) ==>
              r == Pass && client.outbox == old(client.outbox) + [text])
        && (b.lookupFault.None? && id in b.registered && b.textFault.None? && WantsAttachment(pdf, filename) ==>
              var media := MediaMessage(id, PdfMimeType, pdf.value, filename.value, PdfCaption);
              && (b.mediaFault.Some? ==>
                    r == Fail(TransportError(b.mediaFault.value)) && client.outbox == old(client.outbox) + [text])
              && (b.mediaFault.None? ==>
                    r == Pass && client.outbox == old(client.outbox) + [text, media]))
    {
      if client == null || !isReady {
        return Fail(NotReady);
      }
      var id := ChatId(phoneNumber);
      var registered := client.IsRegisteredUser(id);
      if registered.Err? {
        return Fail(TransportError(registered.error));
      }
      if !registered.value {
        return Fail(NotRegistered(phoneNumber));
      }
      var sent := client.Send(TextMessage(id, message));
      if sent.Fail? {
        return Fail(TransportError(sent.error));
      }
      if WantsAttachment(pdf, filename) {
        sent := client.Send(MediaMessage(id, PdfMimeType, pdf.value, filename.value, PdfCaption));
        if sent.Fail? {
          return Fail(TransportError(sent.error));
        }
      }
      r := Pass;
    }

    /** `disconnect`: destroys an installed client and resets every field; without a
        client it does nothing, so a stale QR code survives; a failed destroy
        changes nothing and is reported. */
    method Disconnect() returns (r: Outcome<SessionError>)
      modifies this, client
      ensures old(client) == null ==> r == Pass && unchanged(this)
      ensures old(client) != null && old(client).behaviour.destroyFault.Some? ==>
        && r == Fail(TransportError(old(client).behaviour.destroyFault.value))
        && unchanged(this) && unchanged(client)
      ensures old(client) != null && old(client).behaviour.destroyFault.None? ==>
        && r == Pass && old(client).destroyed
        && client == null && !isReady && !isInitializing && qrCode == ""
    {
      if client != null {
        var c := client;
        var destroyed := c.Destroy();
        if destroyed.Fail? {
          return Fail(TransportError(destroyed.error));
        }
        client := null;
        isReady := false;
        isInitializing := false;
        qrCode := "";
      }
      r := Pass;
    }
  }
}
