/**
  * The dashboard page (app/dashboard/page.tsx): the signed-in check on
  * mount, the chat box that posts to the chat endpoint and appends the
  * answer, and the upload button that stores a file under the user's folder
  * with a random name. Results of the identity service, of `fetch` and of
  * storage, the clock reading (`new Date()`) and `Math.random()` are inputs.
  */
module DashboardPage {
  import opened Wrappers
  import opened Text
  import Documents
  import ChatApi
  import Middleware

  datatype Role = UserRole | AssistantRole

  /** A chat bubble; `timestamp` is the clock reading taken when it was made. */
  datatype Message = Message(role: Role, content: string, timestamp: Option<int>)

  /** The signed-in user as `getUser` returns it; only its id is used. */
  datatype AuthUser = AuthUser(id: string)

  /**
    * What `getUser` did: answered without a user, answered with one, or
    * rejected (the effect has no `try`, so a rejection ends it there).
    */
  datatype UserLookup = NoUser | FoundUser(user: AuthUser) | UserLookupRejected

  /** A selected file; only its name is used by the page. */
  datatype SelectedFile = SelectedFile(name: string)

  const WelcomeText := "Welcome to Slim Tax! I'm your AI tax strategist. How can I help you today?"
  const SendErrorText := "Sorry, I encountered an error. Please try again."

  function UploadedText(fileName: string): string {
    "Document \"" + fileName + "\" uploaded successfully. I'll analyze this and provide tax insights shortly."
  }

  function UploadFailedText(fileName: string): string {
    "Sorry, there was an error uploading \"" + fileName + "\". Please try again."
  }

  /**
    * What the `fetch("/api/chat")` round trip gave: a failure (the request
    * threw, `response.ok` was false or the body was not JSON) or the
    * `response` field of the answer.
    */
  datatype ChatReply = ReplyFailed | Replied(response: string)

  /** How the page reads a reply of the chat endpoint: a 2xx status makes `response.ok` true. */
  function ReadReply(reply: ChatApi.Reply): (r: ChatReply)
    requires 200 <= reply.status < 300 ==> reply.body.AnswerBody?
    ensures r.Replied? <==> 200 <= reply.status < 300
    ensures r.Replied? ==> reply.body == ChatApi.AnswerBody(r.response)
  {
    if 200 <= reply.status < 300 then Replied(reply.body.response) else ReplyFailed
  }

  /** The content of the assistant message that closes a send. */
  function AssistantText(reply: ChatReply): string {
    match reply
    case Replied(response) => response
    case ReplyFailed => SendErrorText
  }

  /**
    * End to end with the chat endpoint: the page posts `{message: input}`;
    * with a session the assistant says one of the ten canned sentences and
    * the follow-up question, otherwise the page's own error text.
    */
  lemma ChatAnswerShown(session: ChatApi.SessionLookup, input: string, r: real)
    requires 0.0 <= r < 1.0
    ensures var text := AssistantText(ReadReply(ChatApi.Chat(session, ChatApi.Json(input), r)));
            (session == ChatApi.HasSession ==>
               exists i :: 0 <= i < |ChatApi.TaxResponses| && text == ChatApi.TaxResponses[i] + ChatApi.FollowUp) &&
            (session != ChatApi.HasSession ==> text == SendErrorText)
  {
    var reply := ChatApi.Chat(session, ChatApi.Json(input), r);
    if session == ChatApi.HasSession {
      var i :| 0 <= i < |ChatApi.TaxResponses| && reply.body == ChatApi.AnswerBody(ChatApi.TaxResponses[i] + ChatApi.FollowUp);
      assert AssistantText(ReadReply(reply)) == ChatApi.TaxResponses[i] + ChatApi.FollowUp;
    }
  }

  /**
    * The storage key of an upload: `${user.id}/${random}.${ext}` where `ext`
    * is `file.name.split(".").pop()`. It lies in the user's folder and keeps
    * the file's extension.
    */
  function UploadPath(userId: string, randomName: string, fileName: string): (path: string)
    ensures StartsWith(path, userId + "/")
    ensures AfterLast(path, '.') == AfterLast(fileName, '.')
  {
    var ext := AfterLast(fileName, '.');
    var path := Documents.ObjectPath(userId, randomName + "." + ext);
    assert path == (userId + "/" + randomName) + "." + ext;
    AfterLastOfJoin(userId + "/" + randomName, '.', ext);
    assert path[..|userId + "/"|] == userId + "/";
    path
  }

  /**
    * The uploaded object, once listed by the document panel, has the key the
    * upload used and the icon of the original file.
    */
  lemma UploadedDocumentListed(userId: string, randomName: string, fileName: string, size: Option<nat>)
    ensures var storedName := randomName + "." + AfterLast(fileName, '.');
            var doc := Documents.FormatDocuments(userId, [Documents.StorageEntry(storedName, size)])[0];
            doc.path == UploadPath(userId, randomName, fileName) &&
            Documents.FileIconFor(doc.name) == Documents.FileIconFor(fileName)
  {
    var ext := AfterLast(fileName, '.');
    AfterLastOfJoin(randomName, '.', ext);
    assert randomName + "." + ext == randomName + ['.'] + ext;
  }

  /** `formatTime(date)`; the `Intl.DateTimeFormat` rendering of a present timestamp is the parameter `format`. */
  function FormatTime(timestamp: Option<int>, format: int -> string): (text: string)
    ensures timestamp.None? ==> text == ""
  {
    match timestamp
    case None => ""
    case Some(t) => format(t)
  }

  /** The page's state: the `useState` values and the pages `router.push` was sent to. */
  class Dashboard {
    var user: Option<AuthUser>
    var loading: bool
    var messages: seq<Message>
    var input: string
    var uploading: bool
    var sendingMessage: bool
    var navigations: seq<string>

    constructor ()
      ensures user == None && loading && messages == [] && input == ""
      ensures !uploading && !sendingMessage && navigations == []
    {
      user := None;
      loading := true;
      messages := [];
      input := "";
      uploading := false;
      sendingMessage := false;
      navigations := [];
    }

    /**
      * `checkUser` on mount with what `getUser` did: no user sends the
      * browser to the sign-in page; a user is kept and the chat starts with
      * the welcome message alone; loading ends in both cases. A rejected
      * lookup changes nothing, so the page stays on its spinner.
      */
    method CheckUser(lookup: UserLookup, now: int)
      modifies this`user, this`messages, this`loading, this`navigations
      ensures lookup == NoUser ==>
                navigations == old(navigations) + [Middleware.LoginPath] &&
                user == old(user) && messages == old(messages) && !loading
      ensures lookup.FoundUser? ==>
                user == Some(lookup.user) && messages == [Message(AssistantRole, WelcomeText, Some(now))] &&
                navigations == old(navigations) && !loading
      ensures lookup == UserLookupRejected ==>
                user == old(user) && messages == old(messages) && navigations == old(navigations) &&
                loading == old(loading)
    {
      match lookup {
        case NoUser =>
          navigations := navigations + [Middleware.LoginPath];
          loading := false;
        case FoundUser(u) =>
          user := Some(u);
          messages := [Message(AssistantRole, WelcomeText, Some(now))];
          loading := false;
        case UserLookupRejected =>
      }
    }

    /**
      * `handleSignOut` with whether `signOut` rejected: once signed out the
      * browser goes to the landing page; a rejection skips the navigation.
      */
    method HandleSignOut(rejected: bool)
      modifies this`navigations
      ensures !rejected ==> navigations == old(navigations) + [Middleware.Root]
      ensures rejected ==> navigations == old(navigations)
    {
      if !rejected {
        navigations := navigations + [Middleware.Root];
      }
    }

    /** The text box's `onChange`. */
    method SetInput(text: string)
      modifies this`input
      ensures input == text
    {
      input := text;
    }

    /** The guard of `handleSendMessage`: a blank input or a send still in flight. */
    predicate SendBlocked(): (blocked: bool)
      reads this
      ensures sendingMessage ==> blocked
      ensures input == "" ==> blocked
    {
      Trim(input) == "" || sendingMessage
    }

    /** Blank means white space only: a send is refused exactly for such an input or while one is in flight. */
    lemma SendBlockedExactly()
      ensures SendBlocked() <==> sendingMessage || forall i :: 0 <= i < |input| ==> IsJsWhitespace(input[i])
    {
    }

    /**
      * `handleSendMessage` up to the `fetch`: unless blocked, the untrimmed
      * input becomes a user message, the box is cleared and the send is in
      * flight. `posted` is the message sent in the request body.
      */
    method BeginSend(now: int) returns (posted: Option<string>)
      modifies this`messages, this`input, this`sendingMessage
      ensures old(SendBlocked()) ==>
                posted == None && messages == old(messages) && input == old(input) &&
                sendingMessage == old(sendingMessage)
      ensures !old(SendBlocked()) ==>
                posted == Some(old(input)) &&
                messages == old(messages) + [Message(UserRole, old(input), Some(now))] &&
                input == "" && sendingMessage
    {
      if SendBlocked() {
        return None;
      }
      posted := Some(input);
      messages := messages + [Message(UserRole, input, Some(now))];
      input := "";
      sendingMessage := true;
    }

    /** The rest of `handleSendMessage`: one assistant message is appended and the send is over. */
    method FinishSend(reply: ChatReply, now: int)
      modifies this`messages, this`sendingMessage
      ensures messages == old(messages) + [Message(AssistantRole, AssistantText(reply), Some(now))]
      ensures !sendingMessage
    {
      messages := messages + [Message(AssistantRole, AssistantText(reply), Some(now))];
      sendingMessage := false;
    }

    /** A whole send with nothing interleaved: the user message, then exactly one assistant message. */
    method HandleSendMessage(reply: ChatReply, sentAt: int, repliedAt: int) returns (posted: Option<string>)
      modifies this`messages, this`input, this`sendingMessage
      ensures old(SendBlocked()) ==>
                posted == None && messages == old(messages) && input == old(input) &&
                sendingMessage == old(sendingMessage)
      ensures !old(SendBlocked()) ==>
                posted == Some(old(input)) &&
                messages == old(messages) + [Message(UserRole, old(input), Some(sentAt)),
                                             Message(AssistantRole, AssistantText(reply), Some(repliedAt))] &&
                input == "" && !sendingMessage
    {
      ghost var before := messages;
      posted := BeginSend(sentAt);
      if posted.Some? {
        ghost var sent := messages;
        FinishSend(reply, repliedAt);
        assert messages == sent + [Message(AssistantRole, AssistantText(reply), Some(repliedAt))];
      }
    }

    /**
      * `handleFileUpload` up to the storage `upload` call. No file: nothing
      * happens. Otherwise `uploading` is set and the key is built; with no
      * user, `user.id` throws before any `await`, so the failure message is
      * appended and `uploading` ends false at once. `path` is the key handed
      * to storage, if it is called.
      */
    method BeginUpload(files: seq<SelectedFile>, randomName: string, now: int) returns (path: Option<string>)
      modifies this`messages, this`uploading
      ensures files == [] ==> path == None && messages == old(messages) && uploading == old(uploading)
      ensures files != [] && user.None? ==>
                path == None && !uploading &&
                messages == old(messages) + [Message(AssistantRole, UploadFailedText(files[0].name), Some(now))]
      ensures files != [] && user.Some? ==>
                path == Some(UploadPath(user.value.id, randomName, files[0].name)) &&
                uploading && messages == old(messages)
    {
      if files == [] {
        return None;
      }
      uploading := true;
      var name := files[0].name;
      match user {
        case None =>
          path := None;
          messages := messages + [Message(AssistantRole, UploadFailedText(name), Some(now))];
          uploading := false;
        case Some(u) =>
          path := Some(UploadPath(u.id, randomName, name));
      }
    }

    /**
      * The rest of `handleFileUpload` once storage answered: one assistant
      * message naming the file, success or failure, and `uploading` ends
      * false.
      */
    method FinishUpload(fileName: string, stored: bool, now: int)
      modifies this`messages, this`uploading
      ensures messages == old(messages) +
                [Message(AssistantRole, if stored then UploadedText(fileName) else UploadFailedText(fileName), Some(now))]
      ensures !uploading
    {
      if stored {
        messages := messages + [Message(AssistantRole, UploadedText(fileName), Some(now))];
        uploading := false;
      } else {
        messages := messages + [Message(AssistantRole, UploadFailedText(fileName), Some(now))];
      }
      uploading := false;
    }

    /**
      * A whole `handleFileUpload` with nothing interleaved, given the random
      * name and the storage outcome `stored`. No file: nothing happens.
      * Otherwise exactly one assistant message naming the file is appended
      * and `uploading` ends false; storage is called with `UploadPath` only
      * when there is a user.
      */
    method HandleFileUpload(files: seq<SelectedFile>, randomName: string, stored: bool, now: int)
      returns (path: Option<string>)
      modifies this`messages, this`uploading
      ensures files == [] ==> path == None && messages == old(messages) && uploading == old(uploading)
      ensures files != [] && user.None? ==>
                path == None &&
                messages == old(messages) + [Message(AssistantRole, UploadFailedText(files[0].name), Some(now))]
      ensures files != [] && user.Some? ==>
                path == Some(UploadPath(user.value.id, randomName, files[0].name)) &&
                messages == old(messages) +
                  [Message(AssistantRole,
                           if stored then UploadedText(files[0].name) else UploadFailedText(files[0].name),
                           Some(now))]
      ensures files != [] ==> !uploading
    {
      path := BeginUpload(files, randomName, now);
      if path.Some? {
        FinishUpload(files[0].name, stored, now);
      }
    }
  }
}
