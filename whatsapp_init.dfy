/** The session-initialisation endpoint: `POST` decides, from the session's
    status, whether to report an existing connection, report a start already in
    progress, or start the session; `GET` turns the status into a label. */
module WhatsAppInit {
  import opened Wrappers
  import opened WhatsApp

  /** `qrCode || null`: the empty string is falsy. */
  function QrOrNull(qr: string): (r: Option<string>)
    ensures r.None? <==> qr == ""
    ensures r.Some? ==> r.value == qr
  {
    if qr == "" then None else Some(qr)
  }

  /** The `status` label: ready wins over initializing. */
  function StatusLabel(s: Status): (name: string)
    ensures name == "ready" <==> s.ready
    ensures name == "initializing" <==> !s.ready && s.initializing
    ensures name == "disconnected" <==> !s.ready && !s.initializing
  {
    if s.ready then "ready" else if s.initializing then "initializing" else "disconnected"
  }

  /** The body `GET` answers with. */
  datatype StatusReply = StatusReply(status: string, qrCode: Option<string>, ready: bool, initializing: bool, hasQR: bool)

  function GetReply(s: Status, qr: string): (r: StatusReply)
    ensures r.status == StatusLabel(s)
    ensures r.qrCode.None? <==> qr == ""
    ensures r.qrCode.Some? ==> r.qrCode.value == qr
    ensures r.ready == s.ready && r.initializing == s.initializing && r.hasQR == s.hasQR
  {
    StatusReply(StatusLabel(s), QrOrNull(qr), s.ready, s.initializing, s.hasQR)
  }

  /** `GET`, read off the live service: `hasQR` and a non-null `qrCode` always agree. */
  function Get(svc: WhatsAppService): (r: StatusReply)
    reads svc
    ensures r == GetReply(svc.GetStatus(), svc.GetQRCode())
    ensures r.hasQR <==> r.qrCode.Some?
  {
    GetReply(svc.GetStatus(), svc.GetQRCode())
  }

  /** The body `POST` answers with; every branch reports `success: true`. */
  datatype InitReply =
    | Connected(message: string)
    | Initializing(message: string, qrCode: Option<string>)

  /** The `status` field of a `POST` body. */
  function InitReplyStatus(r: InitReply): (status: string)
    ensures status == "ready" <==> r.Connected?
    ensures status == "initializing" <==> r.Initializing?
  {
    if r.Connected? then "ready" else "initializing"
  }

  const AlreadyConnectedMessage: string := "WhatsApp is already connected"
  const InitializingMessage: string := "WhatsApp is initializing"
  const StartedMessage: string := "WhatsApp initialization started"

  /** `POST` up to its wait: a ready or initializing session is answered at once,
      with the status `GET` would report, and left alone; otherwise the session
      is started, its failure swallowed, and no answer is given yet (`None`).
      The session's event methods may then run before `PostAfterWait` answers. */
  method Post(svc: WhatsAppService, behaviour: Behaviour) returns (r: Option<InitReply>)
    modifies svc
    ensures old(svc.isReady) ==> r == Some(Connected(AlreadyConnectedMessage)) && unchanged(svc)
    ensures !old(svc.isReady) && old(svc.isInitializing) ==>
      r == Some(Initializing(InitializingMessage, QrOrNull(old(svc.qrCode)))) && unchanged(svc)
    ensures r.Some? ==> InitReplyStatus(r.value) == StatusLabel(old(svc.GetStatus()))
    ensures !old(svc.isReady) && !old(svc.isInitializing) ==>
      && r.None?
      && svc.client != null && fresh(svc.client) && svc.client.behaviour == behaviour
      && svc.isInitializing == behaviour.startFault.None?
      && svc.qrCode == old(svc.qrCode) && !svc.isReady
  {
    var status := svc.GetStatus();
    if status.ready {
      return Some(Connected(AlreadyConnectedMessage));
    }
    if status.initializing {
      var qr := svc.GetQRCode();
      return Some(Initializing(InitializingMessage, QrOrNull(qr)));
    }
    var _ := svc.Initialize(behaviour);
    r := None;
  }

  /** `POST` after its 5-second wait: the answer carries the QR code as the live
      service holds it then, so one stored by a `qr` event during the wait is
      reported; the status says `initializing` even if the session became ready. */
  function PostAfterWait(svc: WhatsAppService): (r: InitReply)
    reads svc
    ensures r.Initializing? && r.message == StartedMessage
    ensures InitReplyStatus(r) == "initializing"
    ensures r.qrCode.Some? <==> svc.GetStatus().hasQR
    ensures r.qrCode.Some? ==> r.qrCode.value == svc.GetQRCode()
  {
    Initializing(StartedMessage, QrOrNull(svc.qrCode))
  }
}
