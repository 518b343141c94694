/**
 The message record of the messaging engine, reduced to the fields the
 send, notification and download paths read or write.
 */
module Entity {
  import opened JsValues

  /** Delivery state of a message as the engine reports it. */
  datatype MessageStatus = Sending | Succeed | Failed

  /** The file payload of a file message; "" stands for a missing value. */
  datatype FileElem = FileElem(sourceUrl: string, fileName: string)

  /**
   A message. `sendTime` is in seconds; `textContent` is `textElem?.content`;
   `progress` is the optional upload progress field the send path sets.
   */
  datatype MessageItem = MessageItem(
    clientMsgID: string,
    serverMsgID: string,
    sendID: string,
    recvID: string,
    groupID: string,
    senderNickname: string,
    senderFaceUrl: string,
    sendTime: int,
    contentType: int,
    status: MessageStatus,
    progress: Option<real>,
    textContent: Option<string>,
    fileElem: Option<FileElem>)
}
