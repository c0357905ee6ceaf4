/** From the broadcaster to the screen: the payload the broadcast endpoint
    sends, as the service worker receives and shows it. JSON serialisation is
    abstracted to carrying the record across: `JSON.stringify` drops an
    absent title or body, which the service worker then reads as missing. */
module PushPipeline {
  import opened Basics
  import PushBroadcast
  import ServiceWorker

  /** The push data a recipient's service worker gets for a broadcast payload. */
  function Received(payload: PushBroadcast.Payload): ServiceWorker.PushData {
    ServiceWorker.Json(ServiceWorker.PushMessage(payload.title, payload.body, Some(payload.url), None))
  }

  /** A broadcast request shows, on every device, a notification titled with
      the request's title (or "Personal Media Manager"), with its message as
      body (or nothing), and pointing at its url (or "/", also when the url
      was given as ""); the badge is never touched, since the broadcaster
      sends no pending count. Clicking it targets that same url. */
  lemma BroadcastShownOnDevice(request: PushBroadcast.BroadcastRequest, badgeApi: bool)
    ensures var h := ServiceWorker.OnPush(Received(PushBroadcast.BuildPayload(request)), badgeApi);
      && h.Shown?
      && h.notification.title == OrElse(request.title, ServiceWorker.DefaultTitle)
      && h.notification.body == OrElse(request.message, "")
      && h.notification.url == OrElse(request.url, ServiceWorker.HomeUrl)
      && h.appBadge == None
      && ServiceWorker.TargetUrl(Some(ServiceWorker.ClickData(Some(h.notification.url)))) == OrElse(request.url, ServiceWorker.HomeUrl)
  {
  }
}
