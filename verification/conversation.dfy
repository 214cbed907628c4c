/**
 * One step of the per-user conversation (`callback` in wp_bot/bot.py): the
 * user's context is loaded, the first matching branch runs, and the context
 * is saved only if the step reaches its end without an exception.
 */
module Conversation {
  import opened Wrappers
  import opened Text
  import opened Services

  /** The values of `BOT_STATUS` that the bot uses. */
  const ASKED_APIKEY := 1
  const ASKED_DATE := 2

  const CREDENTIALS_SAVED := "Ok, credenziali salvate."
  const LOGIN_PROMPT := "Prima di procedere, mandami le credenziali con il comando /login"
  const DOCUMENT_SAVED := "Documento salvato. Di quando è la registrazione?"
  const PUBLISHING := "Ok, sto per pubblicare l'audio"
  const PUBLISHED_AT := "Pubblicato qui: "
  const TITLE_PREFIX := "Vangelo e Omelia "
  const POST_STATUS := "publish"
  const CATEGORIES := "16"

  /** The per-user JSON context: every key may be absent. */
  datatype Context = Context(credentials: Option<string>, filePath: Option<string>, status: Option<int>, date: Option<string>)

  const EMPTY_CONTEXT := Context(None, None, None, None)

  /**
   * What the remote side answers during one step. `failing` is the index of
   * the first remote call of the step that raises (an HTTP error, a timeout,
   * a failed download); the other fields are the parts of the answers the
   * step reads, absent when the answer lacks that key.
   */
  datatype Remote = Remote(
    failing: Option<nat>,
    fileInfo: FileInfo,
    mediaDescription: Option<string>,
    postLink: Option<string>)

  /** The local exceptions a step can raise: a missing key, or credentials that do not split in two. */
  datatype Fault = NoText | CredentialsNotPair | NoRemotePath | NoPendingFile | NoDescription | NoLink

  datatype Ending = Commit(context: Context) | Abort(fault: Fault)

  /**
   * The remote calls one branch makes, in order, assuming each of them
   * returns, and how the branch ends once they have: with the context to
   * save, or with a local exception.
   */
  datatype Plan = Plan(calls: seq<Action>, ending: Ending)

  datatype Outcome = Saved(context: Context) | Raised

  /** The calls actually attempted, and whether the step saved a context. */
  datatype StepResult = StepResult(actions: seq<Action>, outcome: Outcome)

  /** The branches of `callback`, tried in this order. */
  datatype Branch = Command | NoCredentials | DocumentReceived | Publish | Idle

  /** Python truthiness of an optional string: absent and empty are both false. */
  predicate Truthy(s: Option<string>)
  {
    s.Some? && s.value != []
  }

  function Lookup(contexts: map<int, Context>, user: int): Context
  {
    if user in contexts then contexts[user] else EMPTY_CONTEXT
  }

  /** The credentials a command carries: the text after the command entity, stripped. */
  function CommandArgument(text: string, command: Entity): (r: string)
    ensures Trimmed(r)
  {
    Strip(Drop(text, command.offset + command.length))
  }

  /** The credentials split on `:` into an API key and a secret; `None` where Python's unpacking raises. */
  function CredentialsPair(credentials: string): Option<(string, string)>
  {
    var parts := Split(credentials, ':');
    if |parts| == 2 then Some((parts[0], parts[1])) else None
  }

  /** The local file a document is saved to: `media/<file_unique_id>__<file_name>.mp3`. */
  function MediaPath(fileUniqueId: string, fileName: Option<string>): (path: string)
    ensures |path| >= 12 && path[..6] == "media/" && path[|path| - 4..] == ".mp3"
  {
    // an absent file name is formatted by Python as "None"
    "media/" + fileUniqueId + "__" + (if fileName.Some? then fileName.value else "None") + ".mp3"
  }

  function Title(date: string): string
  {
    TITLE_PREFIX + date
  }

  /** The document after the keys returned by `getFile` have replaced its own. */
  function Merge(doc: Document, info: FileInfo): Document
  {
    doc.(fileUniqueId := if info.fileUniqueId.Some? then info.fileUniqueId.value else doc.fileUniqueId,
         filePath := if info.filePath.Some? then info.filePath else doc.filePath)
  }

  /** The document as the download sees it: `getFile` is asked only when the document has no path. */
  function Resolve(doc: Document, info: FileInfo): Document
  {
    if Truthy(doc.filePath) then doc else Merge(doc, info)
  }

  /** The branch `callback` takes: the first one whose condition holds. */
  function Dispatch(ctx: Context, msg: Message): Branch
  {
    if FirstCommand(msg.entities).Some? then Command
    else if !Truthy(ctx.credentials) then NoCredentials
    else if msg.document.Some? then DocumentReceived
    else if ctx.status == Some(ASKED_DATE) then Publish
    else Idle
  }

  function CommandPlan(ctx: Context, msg: Message, command: Entity): Plan
  {
    if msg.text.None? then Plan([], Abort(NoText))
    else
      Plan([SendMessage(msg.chat, CREDENTIALS_SAVED)],
           Commit(ctx.(credentials := Some(CommandArgument(msg.text.value, command)))))
  }

  function DocumentPlan(ctx: Context, chat: int, doc: Document, info: FileInfo): Plan
  {
    var lookup := if Truthy(doc.filePath) then [] else [GetFile(doc.fileId)];
    var d := Resolve(doc, info);
    if d.filePath.None? then Plan(lookup, Abort(NoRemotePath))
    else
      var local := MediaPath(d.fileUniqueId, d.fileName);
      Plan(lookup + [Download(d.filePath.value, local), SendMessage(chat, DOCUMENT_SAVED)],
           Commit(ctx.(filePath := Some(local), status := Some(ASKED_DATE))))
  }

  function PublishPlan(ctx: Context, msg: Message, remote: Remote): Plan
    requires ctx.credentials.Some?
  {
    var pair := CredentialsPair(ctx.credentials.value);
    if pair.None? then Plan([], Abort(CredentialsNotPair))
    else if msg.text.None? then Plan([], Abort(NoText))
    else
      var (apiKey, secret) := pair.value;
      var title := Title(msg.text.value);
      var announce := SendMessage(msg.chat, PUBLISHING);
      if ctx.filePath.None? then Plan([announce], Abort(NoPendingFile))
      else
        var upload := UploadMedia(apiKey, secret, title, ctx.filePath.value);
        if remote.mediaDescription.None? then Plan([announce, upload], Abort(NoDescription))
        else
          var create := CreatePost(apiKey, secret, POST_STATUS, title, remote.mediaDescription.value, CATEGORIES);
          if remote.postLink.None? then Plan([announce, upload, create], Abort(NoLink))
          else
            Plan([announce, upload, create, SendMessage(msg.chat, PUBLISHED_AT + remote.postLink.value)],
                 Commit(ctx.(status := Some(ASKED_APIKEY), filePath := None, date := None)))
  }

  /** The plan of the branch `Dispatch` picks. */
  function Decide(ctx: Context, msg: Message, remote: Remote): Plan
  {
    match Dispatch(ctx, msg)
    case Command => CommandPlan(ctx, msg, FirstCommand(msg.entities).value)
    case NoCredentials => Plan([SendMessage(msg.chat, LOGIN_PROMPT)], Commit(ctx))
    case DocumentReceived => DocumentPlan(ctx, msg.chat, msg.document.value, remote.fileInfo)
    case Publish => PublishPlan(ctx, msg, remote)
    case Idle => Plan([], Commit(ctx))
  }

  /**
   * Runs a plan against the failing call: the calls up to and including the
   * one that raises are attempted, and a context is saved only when no call
   * raised and the plan commits.
   */
  function Run(p: Plan, failing: Option<nat>): (r: StepResult)
    ensures r.actions <= p.calls
    ensures r.outcome.Saved? <==> p.ending.Commit? && (failing.None? || failing.value >= |p.calls|)
    ensures r.outcome.Saved? ==> r.outcome.context == p.ending.context && r.actions == p.calls
    ensures failing.Some? && failing.value < |p.calls| ==> |r.actions| == failing.value + 1
    ensures failing.None? || failing.value >= |p.calls| ==> r.actions == p.calls
  {
    if failing.Some? && failing.value < |p.calls| then StepResult(p.calls[..failing.value + 1], Raised)
    else StepResult(p.calls, if p.ending.Commit? then Saved(p.ending.context) else Raised)
  }

  /** One step on one user's context. */
  function Transition(ctx: Context, msg: Message, remote: Remote): StepResult
  {
    Run(Decide(ctx, msg, remote), remote.failing)
  }

  datatype StoreResult = StoreResult(actions: seq<Action>, contexts: map<int, Context>, raised: bool)

  /**
   * One step on the store of all contexts: an update without a message raises
   * at once; otherwise the sender's context is loaded, stepped, and written
   * back only if the step saved.
   */
  function StoreStep(contexts: map<int, Context>, update: Update, remote: Remote): (r: StoreResult)
    ensures r.raised ==> r.contexts == contexts
    ensures !r.raised ==> update.message.Some? && var user := update.message.value.userId;
              user in r.contexts && r.contexts == contexts[user := r.contexts[user]]
  {
    if update.message.None? then StoreResult([], contexts, true)
    else
      var msg := update.message.value;
      var step := Transition(Lookup(contexts, msg.userId), msg, remote);
      match step.outcome
      case Saved(ctx) => StoreResult(step.actions, contexts[msg.userId := ctx], false)
      case Raised => StoreResult(step.actions, contexts, true)
  }

  /**
   * The saved contexts the bot can reach: there is never a saved date, and
   * a pending file is recorded exactly while the bot waits for the date.
   */
  predicate WellFormed(ctx: Context)
  {
    ctx.date.None? && (ctx.filePath.Some? <==> ctx.status == Some(ASKED_DATE))
  }

  predicate StoreWellFormed(contexts: map<int, Context>)
  {
    forall user | user in contexts :: WellFormed(contexts[user])
  }

  /** The context files of all users, kept in memory. */
  class ContextStore {
    var contexts: map<int, Context>

    constructor ()
      ensures contexts == map[]
    {
      contexts := map[];
    }

    /**
     * `callback`: loads the sender's context, runs the branch, and writes the
     * context back only when the branch ran to its end.
     */
    method Callback(update: Update, remote: Remote) returns (actions: seq<Action>, raised: bool)
      modifies this
      ensures var r := StoreStep(old(contexts), update, remote);
                actions == r.actions && contexts == r.contexts && raised == r.raised
    {
      if update.message.None? {
        return [], true;
      }
      var message := update.message.value;
      var context := Lookup(contexts, message.userId);
      var outcome;
      actions, outcome := Step(context, message, remote);
      raised := outcome.Raised?;
      if !raised {
        contexts := contexts[message.userId := outcome.context];
      }
    }
  }

  /**
   * The body of `callback` between loading and saving: the context is updated
   * as the branch goes, and a raised exception ends the step at once.
   */
  method Step(context: Context, message: Message, remote: Remote) returns (actions: seq<Action>, outcome: Outcome)
    ensures StepResult(actions, outcome) == Transition(context, message, remote)
  {
    var context := context;
    var command := FirstCommand(message.entities);
    if command.Some? {
      assert Dispatch(context, message) == Command;
      assert Transition(context, message, remote) == Run(CommandPlan(context, message, command.value), remote.failing);
      if message.text.None? {
        return [], Raised;
      }
      context := context.(credentials := Some(CommandArgument(message.text.value, command.value)));
      actions := [SendMessage(message.chat, CREDENTIALS_SAVED)];
      if remote.failing == Some(0) {
        return actions, Raised;
      }
    } else if !Truthy(context.credentials) {
      assert Dispatch(context, message) == NoCredentials;
      assert Transition(context, message, remote) == Run(Plan([SendMessage(message.chat, LOGIN_PROMPT)], Commit(context)), remote.failing);
      actions := [SendMessage(message.chat, LOGIN_PROMPT)];
      if remote.failing == Some(0) {
        return actions, Raised;
      }
    } else if message.document.Some? {
      assert Dispatch(context, message) == DocumentReceived;
      assert Decide(context, message, remote) == DocumentPlan(context, message.chat, message.document.value, remote.fileInfo);
      actions, outcome := DocumentStep(context, message.chat, message.document.value, remote);
      return;
    } else if context.status == Some(ASKED_DATE) {
      assert Dispatch(context, message) == Publish;
      assert Decide(context, message, remote) == PublishPlan(context, message, remote);
      actions, outcome := PublishStep(context, message, remote);
      return;
    } else {
      IdleNoCall(context, message, remote);
      actions := [];
    }
    outcome := Saved(context);
  }

  /** The document branch: fetch the remote path if needed, download, ask for the date. */
  method DocumentStep(context: Context, chat: int, document: Document, remote: Remote) returns (actions: seq<Action>, outcome: Outcome)
    ensures StepResult(actions, outcome) == Run(DocumentPlan(context, chat, document, remote.fileInfo), remote.failing)
  {
    var doc := document;
    actions := [];
    if !Truthy(doc.filePath) {
      actions := [GetFile(doc.fileId)];
      if remote.failing == Some(0) {
        return actions, Raised;
      }
      doc := Merge(doc, remote.fileInfo);
    }
    if doc.filePath.None? {
      return actions, Raised;
    }
    var filePath := MediaPath(doc.fileUniqueId, doc.fileName);
    actions := actions + [Download(doc.filePath.value, filePath)];
    if remote.failing == Some(|actions| - 1) {
      return actions, Raised;
    }
    actions := actions + [SendMessage(chat, DOCUMENT_SAVED)];
    if remote.failing == Some(|actions| - 1) {
      return actions, Raised;
    }
    outcome := Saved(context.(filePath := Some(filePath), status := Some(ASKED_DATE)));
  }

  /** The publish branch: upload the pending file, create the post, reply with its link. */
  method PublishStep(context: Context, message: Message, remote: Remote) returns (actions: seq<Action>, outcome: Outcome)
    requires context.credentials.Some?
    ensures StepResult(actions, outcome) == Run(PublishPlan(context, message, remote), remote.failing)
  {
    var context := context;
    actions := [];
    var pair := CredentialsPair(context.credentials.value);
    if pair.None? {
      return actions, Raised;
    }
    var (apiKey, secret) := pair.value;
    if message.text.None? {
      return actions, Raised;
    }
    context := context.(date := message.text);
    actions := [SendMessage(message.chat, PUBLISHING)];
    if remote.failing == Some(0) {
      return actions, Raised;
    }
    var title := Title(context.date.value);
    if context.filePath.None? {
      return actions, Raised;
    }
    actions := actions + [UploadMedia(apiKey, secret, title, context.filePath.value)];
    if remote.failing == Some(1) {
      return actions, Raised;
    }
    if remote.mediaDescription.None? {
      return actions, Raised;
    }
    actions := actions + [CreatePost(apiKey, secret, POST_STATUS, title, remote.mediaDescription.value, CATEGORIES)];
    if remote.failing == Some(2) {
      return actions, Raised;
    }
    if remote.postLink.None? {
      return actions, Raised;
    }
    actions := actions + [SendMessage(message.chat, PUBLISHED_AT + remote.postLink.value)];
    if remote.failing == Some(3) {
      return actions, Raised;
    }
    outcome := Saved(context.(status := Some(ASKED_APIKEY), filePath := None, date := None));
  }

  /**
   * The credentials split into an API key and a secret exactly when they
   * hold one `:`, and the two parts are what lies on either side of it.
   */
  lemma CredentialsPairSpec(credentials: string, apiKey: string, secret: string)
    ensures CredentialsPair(credentials) == Some((apiKey, secret)) <==>
              credentials == apiKey + [':'] + secret && ':' !in apiKey && ':' !in secret
  {
    if credentials == apiKey + [':'] + secret && ':' !in apiKey && ':' !in secret {
      SplitPair(apiKey, secret, ':');
    }
    if CredentialsPair(credentials) == Some((apiKey, secret)) {
      var parts := Split(credentials, ':');
      assert parts == [apiKey, secret];
      assert Join(parts, ':') == apiKey + [':'] + Join(parts[1..], ':');
    }
  }

  /** A sender without credentials who sends no command only gets the login prompt, and nothing is changed. */
  lemma NoCredentialsOnlyPrompt(ctx: Context, msg: Message, remote: Remote)
    requires FirstCommand(msg.entities).None? && !Truthy(ctx.credentials)
    ensures Transition(ctx, msg, remote).actions == [SendMessage(msg.chat, LOGIN_PROMPT)]
    ensures Transition(ctx, msg, remote).outcome == if remote.failing == Some(0) then Raised else Saved(ctx)
  {
  }

  /**
   * A user with no saved context starts from the empty one; without a
   * command they get the login prompt and their loaded context stays as it was.
   */
  lemma NewUserPrompted(contexts: map<int, Context>, update: Update, remote: Remote)
    requires update.message.Some? && update.message.value.userId !in contexts
    requires FirstCommand(update.message.value.entities).None?
    ensures var r := StoreStep(contexts, update, remote);
              r.actions == [SendMessage(update.message.value.chat, LOGIN_PROMPT)] &&
              Lookup(r.contexts, update.message.value.userId) == EMPTY_CONTEXT &&
              (r.raised <==> remote.failing == Some(0))
  {
    NoCredentialsOnlyPrompt(EMPTY_CONTEXT, update.message.value, remote);
  }

  /**
   * Any command entity, whatever the prior state, replaces the credentials by
   * the stripped text after the first command and changes nothing else.
   */
  lemma CommandSetsCredentials(ctx: Context, msg: Message, remote: Remote)
    requires FirstCommand(msg.entities).Some?
    ensures msg.text.None? ==> Transition(ctx, msg, remote) == StepResult([], Raised)
    ensures msg.text.Some? ==> Transition(ctx, msg, remote).actions == [SendMessage(msg.chat, CREDENTIALS_SAVED)]
    ensures msg.text.Some? ==>
              var e := FirstCommand(msg.entities).value;
              Transition(ctx, msg, remote).outcome ==
                if remote.failing == Some(0) then Raised
                else Saved(ctx.(credentials := Some(Strip(Drop(msg.text.value, e.offset + e.length)))))
  {
    var e := FirstCommand(msg.entities).value;
    assert Dispatch(ctx, msg) == Command;
    var p := CommandPlan(ctx, msg, e);
    assert Decide(ctx, msg, remote) == p;
    assert Transition(ctx, msg, remote) == Run(p, remote.failing);
  }

  /** Replaying a command message after it was saved saves the same context again. */
  lemma CommandIdempotent(ctx: Context, msg: Message, remote: Remote)
    requires FirstCommand(msg.entities).Some?
    requires Transition(ctx, msg, remote).outcome.Saved?
    ensures Transition(Transition(ctx, msg, remote).outcome.context, msg, remote) == Transition(ctx, msg, remote)
  {
  }

  /**
   * With credentials and no command, a document always wins over a pending
   * date: the file path is replaced by the one the document is saved to and
   * the status becomes ASKED_DATE; the step saves unless the remote path is
   * missing or a call fails. The calls are `getFile` when the document has no
   * path, the download from the resolved path to the media file and the
   * question about the recording date, cut short at a failing call.
   */
  lemma DocumentSetsPending(ctx: Context, msg: Message, remote: Remote)
    requires FirstCommand(msg.entities).None? && Truthy(ctx.credentials) && msg.document.Some?
    ensures var doc := msg.document.value;
            var d := Resolve(doc, remote.fileInfo);
            var calls := if Truthy(doc.filePath) then 2 else 3;
            var r := Transition(ctx, msg, remote);
              (r.outcome.Saved? <==> d.filePath.Some? && (remote.failing.None? || remote.failing.value >= calls)) &&
              (r.outcome.Saved? ==>
                 r.outcome.context == ctx.(filePath := Some(MediaPath(d.fileUniqueId, d.fileName)), status := Some(ASKED_DATE)))
    ensures var doc := msg.document.value;
            var d := Resolve(doc, remote.fileInfo);
            var r := Transition(ctx, msg, remote);
              d.filePath.Some? ==>
                var full := (if Truthy(doc.filePath) then [] else [GetFile(doc.fileId)]) +
                            [Download(d.filePath.value, MediaPath(d.fileUniqueId, d.fileName)), SendMessage(msg.chat, DOCUMENT_SAVED)];
                  r.actions <= full && (r.outcome.Saved? ==> r.actions == full)
  {
  }

  /**
   * `getFile` is asked first when the document carries no path, and never
   * otherwise; a document with a path is downloaded from that path.
   */
  lemma GetFileOnlyWhenNeeded(ctx: Context, msg: Message, remote: Remote)
    requires FirstCommand(msg.entities).None? && Truthy(ctx.credentials) && msg.document.Some?
    ensures var doc := msg.document.value;
            var acts := Transition(ctx, msg, remote).actions;
              acts != [] &&
              acts[0] == (if Truthy(doc.filePath) then Download(doc.filePath.value, MediaPath(doc.fileUniqueId, doc.fileName))
                          else GetFile(doc.fileId)) &&
              forall i | 1 <= i < |acts| :: !acts[i].GetFile?
  {
  }

  /**
   * Waiting for the date, a plain message with everything available
   * announces, uploads once, creates the post once and replies with its
   * link, in that order; the saved context keeps the credentials, returns to
   * ASKED_APIKEY and has neither file path nor date.
   */
  lemma PublishSequence(ctx: Context, msg: Message, remote: Remote, apiKey: string, secret: string)
    requires FirstCommand(msg.entities).None? && Truthy(ctx.credentials) && msg.document.None?
    requires ctx.status == Some(ASKED_DATE)
    requires CredentialsPair(ctx.credentials.value) == Some((apiKey, secret))
    requires msg.text.Some? && ctx.filePath.Some?
    requires remote.mediaDescription.Some? && remote.postLink.Some? && remote.failing.None?
    ensures var title := TITLE_PREFIX + msg.text.value;
              Transition(ctx, msg, remote) ==
              StepResult([SendMessage(msg.chat, PUBLISHING),
                          UploadMedia(apiKey, secret, title, ctx.filePath.value),
                          CreatePost(apiKey, secret, "publish", title, remote.mediaDescription.value, "16"),
                          SendMessage(msg.chat, PUBLISHED_AT + remote.postLink.value)],
                         Saved(Context(ctx.credentials, None, Some(ASKED_APIKEY), None)))
  {
  }

  /**
   * Waiting for the date, the step saves exactly when the credentials split
   * in two, the message has text, the file is pending, both answers carry
   * the keys read from them and none of the four calls fails; otherwise the
   * stored context is left as it was.
   */
  lemma PublishSavesOnlyOnSuccess(contexts: map<int, Context>, update: Update, remote: Remote)
    requires update.message.Some?
    requires var msg := update.message.value;
             Dispatch(Lookup(contexts, msg.userId), msg) == Publish
    ensures var msg := update.message.value;
            var ctx := Lookup(contexts, msg.userId);
            var r := StoreStep(contexts, update, remote);
              (!r.raised <==>
                 CredentialsPair(ctx.credentials.value).Some? && msg.text.Some? && ctx.filePath.Some? &&
                 remote.mediaDescription.Some? && remote.postLink.Some? &&
                 (remote.failing.None? || remote.failing.value >= 4)) &&
              (r.raised ==> r.contexts == contexts)
  {
  }

  /** Bad credentials raise before any remote call is made. */
  lemma BadCredentialsNoCall(ctx: Context, msg: Message, remote: Remote)
    requires Dispatch(ctx, msg) == Publish && CredentialsPair(ctx.credentials.value).None?
    ensures Transition(ctx, msg, remote) == StepResult([], Raised)
  {
  }

  /**
   * With credentials, no command, no document and no pending date, nothing
   * happens: no call is made and the loaded context is saved back as it was.
   */
  lemma IdleNoCall(ctx: Context, msg: Message, remote: Remote)
    requires Dispatch(ctx, msg) == Idle
    ensures Transition(ctx, msg, remote) == StepResult([], Saved(ctx))
  {
  }

  /**
   * At most one upload and one post creation, and a post only after the
   * media it shows was uploaded under the same title.
   */
  predicate PublishOrdered(acts: seq<Action>)
  {
    (forall i, j | 0 <= i < j < |acts| :: !(acts[i].UploadMedia? && acts[j].UploadMedia?)) &&
    (forall i, j | 0 <= i < j < |acts| :: !(acts[i].CreatePost? && acts[j].CreatePost?)) &&
    (forall j | 0 <= j < |acts| && acts[j].CreatePost? ::
       exists i | 0 <= i < j :: acts[i].UploadMedia? && acts[i].title == acts[j].title)
  }

  lemma PublishOrderedPrefix(s: seq<Action>, t: seq<Action>)
    requires PublishOrdered(s) && t <= s
    ensures PublishOrdered(t)
  {
    assert forall i | 0 <= i < |t| :: t[i] == s[i];
  }

  lemma {:induction false} PlanPublishOrdered(ctx: Context, msg: Message, remote: Remote)
    ensures PublishOrdered(Decide(ctx, msg, remote).calls)
  {
    var calls := Decide(ctx, msg, remote).calls;
    if Dispatch(ctx, msg) == Publish {
      assert |calls| <= 4;
      assert forall i | 0 <= i < |calls| && i != 1 :: !calls[i].UploadMedia?;
      assert forall i | 0 <= i < |calls| && i != 2 :: !calls[i].CreatePost?;
      if |calls| >= 3 {
        assert calls[1].UploadMedia? && calls[1].title == calls[2].title;
      }
    } else {
      assert forall i | 0 <= i < |calls| :: !calls[i].UploadMedia? && !calls[i].CreatePost?;
    }
  }

  /** No step uploads twice or creates two posts, and a post only follows the upload of its media. */
  lemma {:induction false} AtMostOnePublish(ctx: Context, msg: Message, remote: Remote)
    ensures PublishOrdered(Transition(ctx, msg, remote).actions)
  {
    PlanPublishOrdered(ctx, msg, remote);
    PublishOrderedPrefix(Decide(ctx, msg, remote).calls, Transition(ctx, msg, remote).actions);
  }

  /** A step keeps a reachable context reachable. */
  lemma StepPreservesWellFormed(ctx: Context, msg: Message, remote: Remote)
    requires WellFormed(ctx)
    ensures Transition(ctx, msg, remote).outcome.Saved? ==> WellFormed(Transition(ctx, msg, remote).outcome.context)
  {
  }

  /** In a reachable context that waits for the date, the file to publish is always recorded. */
  lemma PendingFileAvailable(ctx: Context, msg: Message)
    requires WellFormed(ctx) && Dispatch(ctx, msg) == Publish
    ensures ctx.filePath.Some? && Truthy(ctx.credentials)
  {
  }

  lemma StoreStepPreservesWellFormed(contexts: map<int, Context>, update: Update, remote: Remote)
    requires StoreWellFormed(contexts)
    ensures StoreWellFormed(StoreStep(contexts, update, remote).contexts)
  {
    if update.message.Some? {
      var msg := update.message.value;
      assert WellFormed(Lookup(contexts, msg.userId));
      StepPreservesWellFormed(Lookup(contexts, msg.userId), msg, remote);
    }
  }
}
