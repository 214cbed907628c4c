/**
 * The two remote services the bot talks to, the Telegram Bot API and the
 * WordPress REST API: the parts of the Telegram payloads that the bot reads,
 * and every call it makes to either service, as values.
 */
module Services {
  import opened Wrappers

  /** One entry of `message.entities`: its `type`, `offset` and `length`. */
  datatype Entity = Entity(kind: string, offset: nat, length: nat)

  /**
   * A `message.document`. `file_id` and `file_unique_id` are always sent;
   * `file_name` and `file_path` may be absent.
   */
  datatype Document = Document(fileId: string, fileUniqueId: string, fileName: Option<string>, filePath: Option<string>)

  /**
   * An inbound message: the sender's id (`from.id`), the chat id (`chat.id`),
   * the optional `text`, the `entities` (an absent list reads as empty) and the
   * optional `document`.
   */
  datatype Message = Message(userId: int, chat: int, text: Option<string>, entities: seq<Entity>, document: Option<Document>)

  /** An update from `getUpdates`; updates that are not messages have no `message`. */
  datatype Update = Update(updateId: int, message: Option<Message>)

  /** The fields of the `result` of `getFile` that are merged into the document. */
  datatype FileInfo = FileInfo(fileUniqueId: Option<string>, filePath: Option<string>)

  /** A remote call the bot makes, in the order it makes them. */
  datatype Action =
    | GetUpdates(offset: Option<int>)
    | SendMessage(chat: int, text: string)
    | GetFile(fileId: string)
      /** Download the file at `remotePath` into the local file `localPath`. */
    | Download(remotePath: string, localPath: string)
      /** `POST /wp/v2/media` with the given title and the local file's bytes. */
    | UploadMedia(apiKey: string, secret: string, title: string, localPath: string)
      /** `POST /wp/v2/posts`. */
    | CreatePost(apiKey: string, secret: string, status: string, title: string, content: string, categories: string)

  const BOT_COMMAND := "bot_command"

  /** The first `bot_command` entity of a message, if there is one. */
  function FirstCommand(entities: seq<Entity>): (r: Option<Entity>)
    ensures r.None? <==> forall e <- entities :: e.kind != BOT_COMMAND
    ensures r.Some? ==> exists i | 0 <= i < |entities| :: entities[i] == r.value && r.value.kind == BOT_COMMAND &&
                          forall j | 0 <= j < i :: entities[j].kind != BOT_COMMAND
  {
    if entities == [] then None
    else if entities[0].kind == BOT_COMMAND then Some(entities[0])
    else
      var r := FirstCommand(entities[1..]);
      assert forall e <- entities :: e == entities[0] || e in entities[1..];
      if r.Some? then
        var i :| 0 <= i < |entities[1..]| && entities[1..][i] == r.value && r.value.kind == BOT_COMMAND &&
                 forall j | 0 <= j < i :: entities[1..][j].kind != BOT_COMMAND;
        assert entities[i + 1] == r.value;
        assert forall j | 0 <= j < i + 1 :: entities[j].kind != BOT_COMMAND by {
          forall j | 0 <= j < i + 1 ensures entities[j].kind != BOT_COMMAND {
            if j > 0 { assert entities[j] == entities[1..][j - 1]; }
          }
        }
        r
      else r
  }
}
