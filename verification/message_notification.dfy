/**
 The inbound-message alert hook: the self-sender guard, the notification
 sound, the desktop-notification permission branches, the notification's
 title and options, and the fallback from the `electronAPI` branch's
 guarded call to a second guarded call. Browser and host capabilities, and
 whether each call of the notification constructor throws, are inputs
 (`Host`); the output is the ordered trace of attempted effects.
 */
module MessageNotification {
  import opened JsValues
  import opened Entity

  const NewMessageLabel := "新消息"
  const TextLabel := "文本消息"
  const FilePrefix := "[文件] "

  /** Content-type codes whose preview is a fixed label, with that label. */
  const FixedLabels: map<int, string> := map[
    102 := "[图片]",
    103 := "[语音]",
    104 := "[视频]",
    106 := "[位置]",
    107 := "[名片]",
    108 := "[聊天记录]"]

  /** `Notification.permission`, and the answer of `Notification.requestPermission()`. */
  datatype Permission = Granted | Denied | Default

  /**
   The call sites of the one global `Notification` constructor:
   `ElectronNotifier` is the `window.Notification` call of the `electronAPI`
   branch; `WebNotifier` is a plain `Notification` call (the fallback inside
   the `electronAPI` branch, or the only call without `electronAPI`).
   */
  datatype Backend = ElectronNotifier | WebNotifier

  datatype NotificationOptions = NotificationOptions(body: string, icon: Option<string>, timestamp: int)

  /** Observable effects; `threw` records whether that construction raised. */
  datatype NotifyEffect =
    | PlaySound
    | RequestPermission
    | Construct(backend: Backend, title: string, options: NotificationOptions, threw: bool)

  /**
   The environment: whether audio plays, whether a `Notification` API exists,
   the current permission and the answer a request would get, whether
   `window.electronAPI` exists, whether the `electronAPI` branch's first
   call throws, and whether a plain `Notification` call throws. Both calls
   reach the same constructor; the flags are kept apart so that a failure
   of the first call alone (a transient one) can be expressed.
   */
  datatype Host = Host(
    audioWorks: bool,
    notificationApi: bool,
    permission: Permission,
    answer: Permission,
    electronApi: bool,
    electronThrows: bool,
    webThrows: bool)

  /** Effects of one dispatch, and whether a construction error escaped uncaught. */
  datatype Dispatch = Dispatch(effects: seq<NotifyEffect>, escaped: bool)

  /**
   The notification body. Total over all content-type codes: a text message
   shows its content (or a placeholder when empty), a file message its file
   name after a fixed prefix, six codes a fixed label, every other code the
   generic new-message label.
   */
  function Preview(m: MessageItem): (r: string)
    ensures |r| > 0
    ensures !(101 <= m.contentType <= 108) ==> r == NewMessageLabel
    ensures m.contentType in FixedLabels ==> r == FixedLabels[m.contentType]
    ensures m.contentType == 101 && Truthy(m.textContent) ==> r == m.textContent.value
    ensures m.contentType == 101 && !Truthy(m.textContent) ==> r == TextLabel
    ensures m.contentType == 105 ==> r == FilePrefix + FileNameOf(m)
  {
    if m.contentType in FixedLabels then FixedLabels[m.contentType]
    else if m.contentType == 101 then (if Truthy(m.textContent) then m.textContent.value else TextLabel)
    else if m.contentType == 105 then FilePrefix + FileNameOf(m)
    else NewMessageLabel
  }

  /** `fileElem?.fileName || ""`. */
  function FileNameOf(m: MessageItem): string {
    if m.fileElem.Some? then m.fileElem.value.fileName else ""
  }

  /** Notification title: the sender's nickname, or the generic label when it is empty. */
  function Title(m: MessageItem): (r: string)
    ensures r != ""
    ensures m.senderNickname != "" ==> r == m.senderNickname
    ensures m.senderNickname == "" ==> r == NewMessageLabel
  {
    OrElse(m.senderNickname, NewMessageLabel)
  }

  /** Notification options: the preview as body, the avatar if any, the send time in milliseconds. */
  function OptionsOf(m: MessageItem): (r: NotificationOptions)
    ensures r.body == Preview(m)
    ensures r.icon == if m.senderFaceUrl != "" then Some(m.senderFaceUrl) else None
    ensures r.timestamp == m.sendTime * 1000
  {
    NotificationOptions(Preview(m), if m.senderFaceUrl != "" then Some(m.senderFaceUrl) else None, m.sendTime * 1000)
  }

  /** A plain constructor call inside a try whose failure is only logged. */
  function FallbackToWeb(title: string, options: NotificationOptions, host: Host): (r: Dispatch)
    ensures r.effects == [Construct(WebNotifier, title, options, host.webThrows)]
    ensures !r.escaped
  {
    Dispatch([Construct(WebNotifier, title, options, host.webThrows)], false)
  }

  /**
   Builds and shows the notification. With `electronAPI` the guarded
   `window.Notification` call runs first and the fallback call only if it
   throws, with that second failure swallowed; without `electronAPI` one
   plain call runs, unguarded, so its failure escapes.
   */
  function CreateNotification(selfID: string, m: MessageItem, host: Host): (r: Dispatch)
    ensures m.sendID == selfID ==> r == Dispatch([], false)
    ensures m.sendID != selfID ==>
      && 1 <= |r.effects| <= 2
      && (forall e :: e in r.effects ==> e.Construct? && e.title == Title(m) && e.options == OptionsOf(m))
      && r.effects[0].backend == (if host.electronApi then ElectronNotifier else WebNotifier)
      && (|r.effects| == 2 <==> host.electronApi && host.electronThrows)
      && (|r.effects| == 2 ==> r.effects[1].backend == WebNotifier)
      && (r.escaped <==> !host.electronApi && host.webThrows)
  {
    if m.sendID == selfID then Dispatch([], false)
    else
      var title := Title(m);
      var options := OptionsOf(m);
      if host.electronApi then
        var first := Construct(ElectronNotifier, title, options, host.electronThrows);
        if host.electronThrows then
          var fallback := FallbackToWeb(title, options, host);
          Dispatch([first] + fallback.effects, fallback.escaped)
        else Dispatch([first], false)
      else Dispatch([Construct(WebNotifier, title, options, host.webThrows)], host.webThrows)
  }

  /** The permission branches: no API, already granted, denied, or ask first. */
  function ShowSystemNotification(selfID: string, m: MessageItem, host: Host): (r: Dispatch)
    ensures !host.notificationApi ==> r == Dispatch([], false)
    ensures RequestPermission in r.effects <==> host.notificationApi && host.permission == Default
    ensures RequestPermission in r.effects ==> r.effects[0] == RequestPermission
    ensures forall i :: 0 < i < |r.effects| ==> r.effects[i].Construct?
    ensures r.effects != [] && r.effects[0] != RequestPermission ==> r.effects[0].Construct?
    ensures (r.effects != [] && r.effects[|r.effects| - 1].Construct?)
       <==> host.notificationApi && PermissionAllows(host) && m.sendID != selfID
  {
    if !host.notificationApi then Dispatch([], false)
    else if host.permission == Granted then CreateNotification(selfID, m, host)
    else if host.permission != Denied then
      assert host.permission == Default;
      var later := if host.answer == Granted then CreateNotification(selfID, m, host) else Dispatch([], false);
      Dispatch([RequestPermission] + later.effects, later.escaped)
    else Dispatch([], false)
  }

  /** Entry point for a new inbound message. */
  function HandleNewMessage(selfID: string, m: MessageItem, host: Host): (r: Dispatch)
    ensures m.sendID == selfID ==> r == Dispatch([], false)
    ensures m.sendID != selfID ==> (|r.effects| > 0 && r.effects[0] == PlaySound <==> host.audioWorks)
  {
    if m.sendID == selfID then Dispatch([], false)
    else
      var sound := if host.audioWorks then [PlaySound] else [];
      var shown := ShowSystemNotification(selfID, m, host);
      Dispatch(sound + shown.effects, shown.escaped)
  }

  /** The backend whose notification appears: the first construction that did not throw. */
  function Shown(effects: seq<NotifyEffect>): Option<Backend> {
    if |effects| == 0 then None
    else if effects[0].Construct? && !effects[0].threw then Some(effects[0].backend)
    else Shown(effects[1..])
  }

  /** The permission decision table: already granted, or undetermined and granted on request. */
  predicate PermissionAllows(host: Host) {
    host.permission == Granted || (host.permission == Default && host.answer == Granted)
  }

  /** The call-site decision table: the `electronAPI` call unless it throws, then a plain call unless it throws. */
  function Capable(host: Host): Option<Backend> {
    if host.electronApi && !host.electronThrows then Some(ElectronNotifier)
    else if !host.webThrows then Some(WebNotifier)
    else None
  }

  lemma {:induction false} ShownSkipsNonConstruct(e: NotifyEffect, rest: seq<NotifyEffect>)
    requires !e.Construct?
    ensures Shown([e] + rest) == Shown(rest)
  {
    assert ([e] + rest)[1..] == rest;
  }

  /**
   A notification appears exactly when the sender is someone else, the
   platform has a notification API, permission is (or becomes) granted and
   some backend constructs without throwing; and it appears on the backend
   the fallback order picks.
   */
  lemma {:induction false} NotificationShownIff(selfID: string, m: MessageItem, host: Host)
    ensures Shown(HandleNewMessage(selfID, m, host).effects)
         == if m.sendID != selfID && host.notificationApi && PermissionAllows(host) then Capable(host) else None
  {
    if m.sendID != selfID {
      var shown := ShowSystemNotification(selfID, m, host);
      if host.audioWorks {
        ShownSkipsNonConstruct(PlaySound, shown.effects);
      } else {
        assert HandleNewMessage(selfID, m, host).effects == shown.effects;
      }
      ShownOfShowSystemNotification(selfID, m, host);
    }
  }

  lemma {:induction false} ShownOfShowSystemNotification(selfID: string, m: MessageItem, host: Host)
    requires m.sendID != selfID
    ensures Shown(ShowSystemNotification(selfID, m, host).effects)
         == if host.notificationApi && PermissionAllows(host) then Capable(host) else None
  {
    if host.notificationApi && host.permission == Default {
      var later := if host.answer == Granted then CreateNotification(selfID, m, host) else Dispatch([], false);
      ShownSkipsNonConstruct(RequestPermission, later.effects);
    }
    if host.notificationApi && PermissionAllows(host) {
      ShownOfCreateNotification(selfID, m, host);
    }
  }

  lemma {:induction false} ShownOfCreateNotification(selfID: string, m: MessageItem, host: Host)
    requires m.sendID != selfID
    ensures Shown(CreateNotification(selfID, m, host).effects) == Capable(host)
  {
    var created := CreateNotification(selfID, m, host).effects;
    var title, options := Title(m), OptionsOf(m);
    if host.electronApi && host.electronThrows {
      var web := Construct(WebNotifier, title, options, host.webThrows);
      assert created == [Construct(ElectronNotifier, title, options, true), web];
      assert created[1..] == [web];
      assert created[1..][1..] == [];
      assert Shown(created) == Shown([web]);
      assert Shown([web]) == if host.webThrows then Shown([]) else Some(WebNotifier);
    } else {
      assert created[1..] == [];
    }
  }

  /** The sound is independent of everything else: a failing audio device changes nothing but the sound. */
  lemma SoundIsIndependent(selfID: string, m: MessageItem, host: Host)
    ensures var loud := HandleNewMessage(selfID, m, host.(audioWorks := true));
            var mute := HandleNewMessage(selfID, m, host.(audioWorks := false));
      && loud.escaped == mute.escaped
      && loud.effects == (if m.sendID != selfID then [PlaySound] else []) + mute.effects
  {
    var on, off := host.(audioWorks := true), host.(audioWorks := false);
    assert CreateNotification(selfID, m, on) == CreateNotification(selfID, m, off);
    assert ShowSystemNotification(selfID, m, on) == ShowSystemNotification(selfID, m, off);
  }
}
