/** The service worker's `push` and `notificationclick` handlers. The
    browser pieces are parameters: the push message's data, whether the
    Badging API is present, the open window clients, and whether
    `clients.openWindow` exists. */
module ServiceWorker {
  import opened Basics

  /** The fields of a parsed push message; a missing or null field is `None`.
      A JSON value that is not an object (a number, a string, an array) has
      none of these fields and reads as all `None`. */
  datatype PushMessage = PushMessage(title: Option<string>, body: Option<string>, url: Option<string>, pendingCount: Option<int>)

  /** `event.data` of a push event: absent, JSON, the JSON literal `null`, or
      text that is not JSON. */
  datatype PushData = NoData | Json(message: PushMessage) | JsonNull | NotJson(text: string)

  /** What `showNotification(title, options)` is given. */
  datatype Notification = Notification(title: string, body: string, icon: string, badge: string, url: string)

  /** The push handler's effect: it threw, or it showed a notification and
      perhaps set the app badge. */
  datatype PushHandling = Threw | Shown(notification: Notification, appBadge: Option<int>)

  const DefaultTitle := "Personal Media Manager"
  const FallbackTitle := "New Notification"
  const IconPath := "/icon-192.png"
  const HomeUrl := "/"

  /** The data the push handler goes on with: an empty object without data,
      the parsed message, a fallback title with the raw text when the data is
      not JSON, or `None` when it is `null`, whose fields cannot be read. */
  function ReadPushData(data: PushData): (r: Option<PushMessage>)
    ensures r.None? <==> data == JsonNull
    ensures data.NoData? ==> r == Some(PushMessage(None, None, None, None))
    ensures data.Json? ==> r == Some(data.message)
    ensures data.NotJson? ==> r.Some? && r.value.title == Some(FallbackTitle) && r.value.body == Some(data.text)
    ensures data.NotJson? ==> r.Some? && r.value.url.None? && r.value.pendingCount.None?
  {
    match data
    case NoData => Some(PushMessage(None, None, None, None))
    case Json(message) => Some(message)
    case JsonNull => None
    case NotJson(text) => Some(PushMessage(Some(FallbackTitle), Some(text), None, None))
  }

  /** The push handler; `badgeApi` is `typeof navigator !== "undefined" &&
      "setAppBadge" in navigator`. */
  function OnPush(data: PushData, badgeApi: bool): (h: PushHandling)
    ensures h.Threw? <==> data == JsonNull
    ensures h.Shown? ==> h.notification.title != "" && h.notification.url != ""
    ensures h.Shown? ==> h.notification.icon == IconPath && h.notification.badge == IconPath
    ensures h.Shown? && h.appBadge.Some? ==> badgeApi
  {
    match ReadPushData(data)
    case None => Threw
    case Some(m) =>
      Shown(Notification(OrElse(m.title, DefaultTitle), OrElse(m.body, ""), IconPath, IconPath, OrElse(m.url, HomeUrl)),
            if badgeApi && m.pendingCount.Some? then m.pendingCount else None)
  }

  /** No data: every field takes its default and the badge is left alone. */
  lemma NoDataShowsDefaults(badgeApi: bool)
    ensures OnPush(NoData, badgeApi) == Shown(Notification(DefaultTitle, "", IconPath, IconPath, HomeUrl), None)
  {
  }

  /** Data that is not JSON: the fallback title, with the raw text as body. */
  lemma NotJsonShowsRawText(text: string, badgeApi: bool)
    ensures OnPush(NotJson(text), badgeApi) == Shown(Notification(FallbackTitle, text, IconPath, IconPath, HomeUrl), None)
  {
  }

  /** A JSON message: each field is used when truthy, otherwise defaulted, and
      the badge is set to `pendingCount` exactly when the Badging API is there
      and the count is present (0 included). */
  lemma JsonFieldsOrDefaults(m: PushMessage, badgeApi: bool)
    ensures var h := OnPush(Json(m), badgeApi);
      && h.Shown?
      && (Truthy(m.title) ==> h.notification.title == m.title.value)
      && (!Truthy(m.title) ==> h.notification.title == DefaultTitle)
      && (Truthy(m.body) ==> h.notification.body == m.body.value)
      && (!Truthy(m.body) ==> h.notification.body == "")
      && (Truthy(m.url) ==> h.notification.url == m.url.value)
      && (!Truthy(m.url) ==> h.notification.url == HomeUrl)
      && (h.appBadge.Some? <==> badgeApi && m.pendingCount.Some?)
      && (h.appBadge.Some? ==> h.appBadge == m.pendingCount)
  {
  }

  /** `event.notification.data`: the `{url}` object the push handler attached. */
  datatype ClickData = ClickData(url: Option<string>)

  /** A window client: its URL, and whether it has a `focus` method. */
  datatype WindowClient = WindowClient(url: string, focusable: bool)

  /** What the click handler does besides closing the notification. */
  datatype ClickAction = Focus(index: nat) | OpenWindow(url: string) | NoAction

  /** `(data && data.url) || "/"`. */
  function TargetUrl(data: Option<ClickData>): (url: string)
    ensures url != ""
    ensures data.Some? && Truthy(data.value.url) ==> url == data.value.url.value
    ensures !(data.Some? && Truthy(data.value.url)) ==> url == HomeUrl
  {
    if data.Some? then OrElse(data.value.url, HomeUrl) else HomeUrl
  }

  /** `s.includes(t)`, by checking each starting position in turn. The
      empty target is included in every string; a target is never included
      in a shorter string, and in one of its own length only when equal. */
  predicate Includes(s: string, t: string): (b: bool)
    ensures b ==> |t| <= |s|
    ensures t == [] ==> b
    ensures |s| == |t| ==> (b <==> s == t)
    decreases |s|
  {
    if |s| < |t| then false
    else s[..|t|] == t || (s != [] && Includes(s[1..], t))
  }

  /** t occurs in s starting at position i. */
  ghost predicate OccursAt(t: string, s: string, i: int) {
    0 <= i <= |s| - |t| && s[i..i + |t|] == t
  }

  /** The meaning of `includes`: t occurs in s at some position. */
  ghost predicate OccursIn(t: string, s: string) {
    exists i :: OccursAt(t, s, i)
  }

  lemma {:induction false} IncludesIffOccurs(s: string, t: string)
    ensures Includes(s, t) <==> OccursIn(t, s)
    decreases |s|
  {
    if |s| < |t| {
    } else if s[..|t|] == t {
      assert OccursAt(t, s, 0);
    } else {
      assert s != [];
      IncludesIffOccurs(s[1..], t);
      if OccursIn(t, s[1..]) {
        var i :| OccursAt(t, s[1..], i);
        assert s[i + 1..i + 1 + |t|] == s[1..][i..i + |t|];
        assert OccursAt(t, s, i + 1);
      }
      if OccursIn(t, s) {
        var i :| OccursAt(t, s, i);
        assert i != 0;
        assert s[1..][i - 1..i - 1 + |t|] == s[i..i + |t|];
        assert OccursAt(t, s[1..], i - 1);
      }
    }
  }

  /** A client the handler should focus for this target: the target occurs
      in its URL and it can be focused. */
  ghost predicate MatchesSpec(client: WindowClient, target: string) {
    OccursIn(target, client.url) && client.focusable
  }

  /** The click handler: close the notification, then focus the first window
      client whose URL includes the target, else open a window at the target
      if `clients.openWindow` exists. */
  method OnNotificationClick(data: Option<ClickData>, clients: seq<WindowClient>, canOpenWindow: bool)
    returns (closed: bool, action: ClickAction)
    ensures closed
    ensures action.Focus? ==>
      && action.index < |clients|
      && MatchesSpec(clients[action.index], TargetUrl(data))
      && forall j :: 0 <= j < action.index ==> !MatchesSpec(clients[j], TargetUrl(data))
    ensures action.OpenWindow? <==> canOpenWindow && forall j :: 0 <= j < |clients| ==> !MatchesSpec(clients[j], TargetUrl(data))
    ensures action.OpenWindow? ==> action.url == TargetUrl(data)
    ensures action.NoAction? <==> !canOpenWindow && forall j :: 0 <= j < |clients| ==> !MatchesSpec(clients[j], TargetUrl(data))
  {
    closed := true;
    var target := TargetUrl(data);
    var i := 0;
    while i < |clients|
      invariant 0 <= i <= |clients|
      invariant forall j :: 0 <= j < i ==> !MatchesSpec(clients[j], target)
    {
      IncludesIffOccurs(clients[i].url, target);
      if Includes(clients[i].url, target) && clients[i].focusable {
        action := Focus(i);
        return;
      }
      i := i + 1;
    }
    if canOpenWindow {
      action := OpenWindow(target);
    } else {
      action := NoAction;
    }
  }

  /** Clicking a notification the push handler showed targets the url it
      was shown with. */
  lemma ClickTargetsShownUrl(data: PushData, badgeApi: bool)
    requires OnPush(data, badgeApi).Shown?
    ensures TargetUrl(Some(ClickData(Some(OnPush(data, badgeApi).notification.url)))) == OnPush(data, badgeApi).notification.url
  {
  }
}
