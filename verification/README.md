# Message delivery and notification pipeline of an Electron IM client, in Dafny

This project models three pieces of decision logic from the client's chat
UI as pure functions (and one method with a loop) that return the ordered
trace of effects they perform:

- **Outbound send** (`SendMessage`, `send_message.dfy`): one `sendMessage`
  call from its arguments, the open conversation and how the messaging
  engine's send settles, to the trace `Push`, `ScrollToBottom`,
  `Send(options)`, `Update(patch)`; plus the engine progress listener, which
  turns every progress event into a `{clientMsgID, progress}` patch.
- **Inbound notification** (`MessageNotification`, `message_notification.dfy`):
  the preview text for every content-type code, the self-sender guard, the
  notification sound, the desktop-notification permission branches, the
  title/icon/timestamp, and the fallback inside the `electronAPI` branch from
  its guarded `window.Notification` call (`ElectronNotifier`) to a second,
  plain `Notification` call (`WebNotifier`, also the only call without
  `electronAPI`). The host (audio, `Notification` API, permission state and
  the answer to a permission request, `electronAPI`, whether the first and
  the plain call throw) is an input; the trace holds `PlaySound`, `RequestPermission` and
  `Construct(backend, title, options, threw)`, and the result also records
  whether a construction error escaped uncaught.
- **File download** (`FileDownload`, `file_download.dfy`): the click
  handler of a file bubble. The fetch result is an input (rejected, or a
  response with its ok flag, status, parsed `content-length` and either a
  chunk stream or a whole-body fallback). The method `HandleDownload` and
  its read loop `ReadChunks` produce the trace of `SetDownloading`,
  `SetProgress`, `Save(bytes, name)` and `LogError` effects, proved equal
  to the reference trace `Expected`.

`JsValues` (`js_values.dfy`) makes the JavaScript rules the code relies on
explicit: `undefined` as `Option.None`, string truthiness, `||` and `??`.
`Entity` (`entity.dfy`) holds the message record shared by all three.

Three behaviours of the code worth stating plainly:

- The progress listener forwards every event unfiltered (`ForwardProgress`);
  any check that the message is still in flight would have to be in
  `updateOneMessage`, which is not part of this model.
- The `??` fallbacks can fill both the peer and the group id handed to the
  engine (`ResolvedIdsMayBothBeSet`).
- Without `electronAPI` the constructor call at
  `src/hooks/useMessageNotification.ts:98` runs outside any `try`, so its
  error escapes the hook (`Dispatch.escaped`).

## Model

| member | source | states |
|---|---|---|
| JsValues.OrDiffersFromCoalesce | src/pages/chat/queryChat/ChatFooter/useSendMessage.ts:45-59 | `a \|\| b` and `a ?? b` give different results exactly when `a` is a defined empty string (and `b` is not empty) |
| SendMessage.NeedPush | src/pages/chat/queryChat/ChatFooter/useSendMessage.ts:45-50 | an explicit `needPush` always wins; the default is true iff neither `recvID` nor `groupID` is a non-empty string, or the source id (`recvID \|\| groupID`) equals the open conversation's user or group id |
| SendMessage.OptionsFor | src/pages/chat/queryChat/ChatFooter/useSendMessage.ts:57-61 | the message is passed unchanged; each id is the argument when it is defined (even ""), else the open conversation's id, else "" |
| SendMessage.Optimistic | src/pages/chat/queryChat/ChatFooter/useSendMessage.ts:53 | the pushed copy has progress 0 and agrees with the input on every other field |
| SendMessage.Reconciled | src/pages/chat/queryChat/ChatFooter/useSendMessage.ts:63-71 | on success the update is the engine's message; on failure it is the input with status Failed and every other field unchanged |
| SendMessage.SendCall | src/pages/chat/queryChat/ChatFooter/useSendMessage.ts:42-72 | a pushed send is Push(optimistic copy), ScrollToBottom, Send(resolved options), Update(reconciled); an unpushed send has only the last two |
| SendMessage.SendCallShape | src/pages/chat/queryChat/ChatFooter/useSendMessage.ts:52-71 | exactly one push and one scroll when pushing and none otherwise, exactly one engine call and exactly one update |
| SendMessage.SendCallOrder | src/pages/chat/queryChat/ChatFooter/useSendMessage.ts:52-71 | effects come strictly in the order push, scroll, engine call, update |
| SendMessage.EmptyRecvIDIsKept | src/pages/chat/queryChat/ChatFooter/useSendMessage.ts:45-58 | an explicit empty `recvID` is skipped when choosing the source id but is what the engine receives |
| SendMessage.ResolvedIdsMayBothBeSet | src/pages/chat/queryChat/ChatFooter/useSendMessage.ts:57-59 | for every non-empty group id given alone and every open conversation with a non-empty peer id, the engine gets that peer id and that group id |
| SendMessage.TerminalUpdate | src/pages/chat/queryChat/ChatFooter/useSendMessage.ts:63-71 | whether or not the message was pushed, the last effect is one whole-message update carrying the engine's message or the failed input |
| SendMessage.OnProgress | src/pages/chat/queryChat/ChatFooter/useSendMessage.ts:23-33 | a progress event becomes an update patch with the same client id and progress |
| SendMessage.ForwardProgress | src/pages/chat/queryChat/ChatFooter/useSendMessage.ts:23-35 | every event is forwarded, one patch per event, in arrival order, with no filtering |
| MessageNotification.Preview | src/hooks/useMessageNotification.ts:124-145 | total and never empty; text shows its content or the text placeholder; file shows the file prefix and name (just the prefix without a name); six codes map to fixed labels independent of payload; any other code gives the generic label |
| MessageNotification.Title | src/hooks/useMessageNotification.ts:76 | never empty: the sender nickname when non-empty, the generic label otherwise |
| MessageNotification.OptionsOf | src/hooks/useMessageNotification.ts:77-81 | body is the preview, icon is the avatar URL or absent when empty, timestamp is send time times 1000 |
| MessageNotification.FallbackToWeb | src/hooks/useMessageNotification.ts:110-121 | one plain constructor call, whose failure is caught and never escapes |
| MessageNotification.CreateNotification | src/hooks/useMessageNotification.ts:70-107 | nothing for one's own message; otherwise one or two constructions with the same title and options, the guarded `window.Notification` call first when `electronAPI` exists and the plain fallback call only when that threw; without `electronAPI` one plain call, and an error escapes only from that unguarded call |
| MessageNotification.ShowSystemNotification | src/hooks/useMessageNotification.ts:50-67 | nothing without the API; a permission request happens iff the permission is undetermined and comes first; a construction happens iff permission is granted, or undetermined and granted on request |
| MessageNotification.HandleNewMessage | src/hooks/useMessageNotification.ts:148-159 | one's own message causes no effect at all; otherwise the sound (when audio works) comes first |
| MessageNotification.NotificationShownIff | src/hooks/useMessageNotification.ts:50-121 | a notification appears iff the sender is someone else, the API exists, permission allows it and some call constructs without throwing; it comes from the `electronAPI` branch's first call unless that throws, then from the plain call |
| MessageNotification.ShownOfShowSystemNotification | src/hooks/useMessageNotification.ts:50-67 | the permission branches gate the backend decision: shown backend is the fallback choice iff permission allows |
| MessageNotification.ShownOfCreateNotification | src/hooks/useMessageNotification.ts:83-121 | for another sender's message the shown backend follows the fallback order: the `electronAPI` branch's first call, then the plain call |
| MessageNotification.SoundIsIndependent | src/hooks/useMessageNotification.ts:148-159 | whether the sound plays changes nothing but the sound itself |
| FileDownload.PublishedProgress | src/pages/chat/queryChat/MessageItem/FileMessageRender.tsx:60-63 | no percentage when the total is 0 (unknown), otherwise exactly one per chunk read |
| FileDownload.PublishedProgressIsFloor | src/pages/chat/queryChat/MessageItem/FileMessageRender.tsx:61 | each published percentage is the non-negative floor of the loaded count so far times 100 over the total |
| FileDownload.Middle | src/pages/chat/queryChat/MessageItem/FileMessageRender.tsx:25-76 | between the opening and closing setters there are only percentages followed by exactly one save (under the save name) or one logged error; a non-ok response logs its status and nothing else |
| FileDownload.Expected | src/pages/chat/queryChat/MessageItem/FileMessageRender.tsx:20-80 | nothing without a source URL; otherwise the opening setters, the middle part and the `finally` setters, in that order |
| FileDownload.SaveName | src/pages/chat/queryChat/MessageItem/FileMessageRender.tsx:70 | the file name, or "file" when it is empty; never empty |
| FileDownload.HandleDownload | src/pages/chat/queryChat/MessageItem/FileMessageRender.tsx:19-81 | no source URL means no effect; otherwise the trace equals the reference trace, starts by raising the flag and zeroing progress, and ends with the reset |
| FileDownload.ReadChunks | src/pages/chat/queryChat/MessageItem/FileMessageRender.tsx:52-66 | the loaded count is the sum of chunk lengths and the blob length; one floor percentage per chunk when the total is known; the joined chunks are saved unless a read throws |
| FileDownload.PrefixStep | src/pages/chat/queryChat/MessageItem/FileMessageRender.tsx:57-63 | reading one more chunk adds its length to the count and, when the total is known, one progress setter to the trace |
| FileDownload.ProgressTraceIsPublished | src/pages/chat/queryChat/MessageItem/FileMessageRender.tsx:52-64 | the setters the loop issues chunk by chunk are exactly the closed-form percentages, in read order |
| FileDownload.EndsIdle | src/pages/chat/queryChat/MessageItem/FileMessageRender.tsx:77-80 | after the `finally` block the UI state is not downloading with progress 0, whatever came before |
| FileDownload.DownloadEndsIdle | src/pages/chat/queryChat/MessageItem/FileMessageRender.tsx:19-81 | on every path past the early exit (saved, fallback return, or error) the UI ends not downloading with progress 0, from any prior state |
| FileDownload.ConcatLength | src/pages/chat/queryChat/MessageItem/FileMessageRender.tsx:57-66 | the saved blob holds exactly the loaded number of bytes |
| FileDownload.SumLengthsMonotone | src/pages/chat/queryChat/MessageItem/FileMessageRender.tsx:58 | the loaded count never decreases as chunks are read |
| FileDownload.ProgressMonotone | src/pages/chat/queryChat/MessageItem/FileMessageRender.tsx:60-63 | the published percentages are non-decreasing |
| FileDownload.ProgressBounded | src/pages/chat/queryChat/MessageItem/FileMessageRender.tsx:61 | while the loaded count is at most the total, the published percentage is at most 100 |
| FileDownload.ProgressReaches100 | src/pages/chat/queryChat/MessageItem/FileMessageRender.tsx:58-62 | when the chunks add up to a non-zero total, one percentage per chunk is published and the last is 100 |
| FileDownload.SavesIff | src/pages/chat/queryChat/MessageItem/FileMessageRender.tsx:20-74 | something is saved iff there is a source URL, the response is ok, and the whole body was obtained or the stream ended normally |
| FileDownload.NoProgressPublished | src/pages/chat/queryChat/MessageItem/FileMessageRender.tsx:27-63 | a failed fetch, a non-ok response, the whole-body fallback or an unknown total publish no percentage but the two zeros |

## Left out

- The notification tone (Web Audio oscillator, gain, 200 ms timer): a foreign API and a timer. It is the `PlaySound` effect, present when the host's audio works; a failure is swallowed and only drops that effect.
- The click handler of a notification (`window.focus`, `close`): browser plumbing after construction.
- Anchor creation, `createObjectURL`/`revokeObjectURL` and the click that saves: one `Save(bytes, name)` effect.
- React state, `useRef`/`useEffect` registration and teardown of the progress listener, and all rendering, including the rounded upload percentage of the bubble (a float display value).
- `pushNewMessage` and `updateOneMessage`: they live in a list hook that is not part of this model, so their merge and liveness rules stay abstract; the model records the arguments they receive.
- The engine's send call and its progress stream: the send's settlement is an input (`SdkOutcome`), the events a sequence.
- Asynchronous interleaving: each call is one sequential trace; the permission request's `.then` continuation is placed after `RequestPermission`.
- FileDownload.PublishedProgress: the percentage is integer `loaded * 100 / total`, whereas the code computes `Math.floor((loaded / total) * 100)` in floating point, which can come out one lower (e.g. 29 of 100 bytes). When loaded equals total both give 100.
- FileDownload.HandleDownload: `total` is a natural number, 0 standing for a missing or unparseable `content-length` (NaN is falsy); a negative parsed length is not modelled.
- MessageNotification.CreateNotification: the `electronThrows` and `webThrows` flags are independent although both calls reach the same global `Notification` constructor with the same arguments; a successful fallback after a failed first call therefore stands for a transient failure, and a persistent one is the case where both flags are true.
- Browser permission strings other than granted, denied and default: `Default` stands for every value other than "granted" and "denied", which the code treats alike.
