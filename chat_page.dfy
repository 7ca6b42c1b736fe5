/**
 * The contract-chat page: the session state (uploaded contracts, transcript,
 * input box, two loading flags, error slot) and its three handlers — upload a
 * batch of files, send the current question, reset. Browser reading of files
 * and the model call are parameters; notifications are returned as tags.
 */
module ChatPage {
  import opened Wrappers
  import opened Text
  import opened Schemas
  import ChatFlow

  /** The per-file size ceiling, 20 MiB; a file strictly larger is refused. */
  const MaxFileSize: nat := 20 * 1024 * 1024

  const PdfMime: string := "application/pdf"

  const NoContractsError: string := "Please upload" + " contracts before asking questions."

  /** The AI message shown in place of a response when the chat call throws. */
  const Apology: string :=
    "I'm sorry, I" + " encountered an error trying to process your request. Please try again."

  /**
   * A picked file as the browser describes it. `id` stands for the file
   * object itself (and so for its bytes): two picked files with the same name,
   * size and type are still two files, which may read differently.
   */
  datatype File = File(id: nat, name: string, size: nat, mimeType: string)

  /** An accepted file with the data URI it was read into. */
  datatype UploadedContract = UploadedContract(file: File, dataUri: string)

  datatype Sender = User | Ai

  datatype Message = Message(sender: Sender, text: string)

  /** The notifications the handlers raise, by kind. */
  datatype Toast =
    | FileTooLarge(fileName: string)
    | FileNotPdf(fileName: string)
    | FileProcessingError(fileName: string)
    | UploadSuccessful(count: nat)
    | PartialUpload(count: nat)
    | NoContracts
    | ChatError
    | ResetComplete

  /**
   * Conversion of a file to a data URI by the browser's file reader: it
   * resolves with the URI or rejects with what the reader threw.
   */
  type Reader = File -> Result<string, Thrown>

  /**
   * The chat server action as the page calls it. With a transport that
   * forwards results and thrown messages unchanged it is
   * `ChatFlow.ChatWithContracts(·, model)`; a transport that replaces thrown
   * errors, or a failed round trip, is just another chat action.
   */
  type ChatAction = ChatWithContractsInput -> Result<ChatWithContractsOutput, Thrown>

  // ---------------------------------------------------------------- one file

  /** What the upload loop decides about one file. */
  datatype Verdict = TooLarge | NotPdf | Unreadable(thrown: Thrown) | Readable(dataUri: string)

  /** The checks of one loop iteration, in their order: size, then type, then reading. */
  function Screen(f: File, read: Reader): (v: Verdict)
    ensures v.Readable? <==> f.size <= MaxFileSize && f.mimeType == PdfMime && read(f).Success?
    ensures v.Readable? ==> read(f) == Success(v.dataUri)
    ensures f.size > MaxFileSize ==> v == TooLarge
    ensures v == NotPdf <==> f.size <= MaxFileSize && f.mimeType != PdfMime
    ensures v.Unreadable? <==> f.size <= MaxFileSize && f.mimeType == PdfMime && read(f).Failure?
    ensures v.Unreadable? ==> read(f) == Failure(v.thrown)
  {
    if f.size > MaxFileSize then TooLarge
    else if f.mimeType != PdfMime then NotPdf
    else match read(f)
      case Success(uri) => Readable(uri)
      case Failure(e) => Unreadable(e)
  }

  function TooLargeError(name: string): string {
    "File \"" + name + "\" exceeds 20MB. Please upload smaller PDFs."
  }

  function NotPdfError(name: string): string {
    "File \"" + name + "\" is not a PDF. Please upload PDF files only."
  }

  function ProcessingError(name: string, e: Thrown): string {
    "Failed to process file \"" + name + "\": " + MessageOr(e, "An unknown error occurred processing file.")
  }

  /** The error-slot text for a refused file. */
  function RejectionError(f: File, v: Verdict): string
    requires !v.Readable?
  {
    match v
    case TooLarge => TooLargeError(f.name)
    case NotPdf => NotPdfError(f.name)
    case Unreadable(e) => ProcessingError(f.name, e)
  }

  /** The notification for a refused file. */
  function RejectionToast(f: File, v: Verdict): Toast
    requires !v.Readable?
  {
    match v
    case TooLarge => FileTooLarge(f.name)
    case NotPdf => FileNotPdf(f.name)
    case Unreadable(_) => FileProcessingError(f.name)
  }

  // ---------------------------------------------------------------- a batch, file by file

  /** The contracts the loop collects from `files`, in the order it visits them. */
  function Accepted(files: seq<File>, read: Reader): seq<UploadedContract>
    decreases |files|
  {
    if files == [] then []
    else
      var f := files[|files| - 1];
      Accepted(files[..|files| - 1], read)
      + (match Screen(f, read) case Readable(uri) => [UploadedContract(f, uri)] case _ => [])
  }

  /** Some file of the batch was refused: the loop's `fileErrorOccurred`. */
  predicate AnyRejected(files: seq<File>, read: Reader) {
    exists i :: 0 <= i < |files| && !Screen(files[i], read).Readable?
  }

  /** The error slot after the loop: each refusal overwrites it, so the last one wins. */
  function LastError(files: seq<File>, read: Reader): Option<string>
    decreases |files|
  {
    if files == [] then None
    else
      var f := files[|files| - 1];
      var v := Screen(f, read);
      if v.Readable? then LastError(files[..|files| - 1], read) else Some(RejectionError(f, v))
  }

  /** The per-file notifications the loop raises, in order. */
  function FileToasts(files: seq<File>, read: Reader): seq<Toast>
    decreases |files|
  {
    if files == [] then []
    else
      var f := files[|files| - 1];
      var v := Screen(f, read);
      FileToasts(files[..|files| - 1], read) + (if v.Readable? then [] else [RejectionToast(f, v)])
  }

  /** The closing notification of an upload, from the number accepted and the error flag. */
  function FinalToast(accepted: nat, failed: bool): seq<Toast> {
    if accepted > 0 && !failed then [UploadSuccessful(accepted)]
    else if accepted > 0 && failed then [PartialUpload(accepted)]
    else []
  }

  /** How one more file extends what the loop has gathered from a prefix of the batch. */
  lemma BatchStep(files: seq<File>, i: nat, read: Reader)
    requires i < |files|
    ensures var v := Screen(files[i], read);
      && Accepted(files[..i + 1], read) == Accepted(files[..i], read)
           + (if v.Readable? then [UploadedContract(files[i], v.dataUri)] else [])
      && LastError(files[..i + 1], read) == (if v.Readable? then LastError(files[..i], read) else Some(RejectionError(files[i], v)))
      && FileToasts(files[..i + 1], read) == FileToasts(files[..i], read) + (if v.Readable? then [] else [RejectionToast(files[i], v)])
      && (AnyRejected(files[..i + 1], read) <==> AnyRejected(files[..i], read) || !v.Readable?)
  {
    var pre, ext := files[..i], files[..i + 1];
    assert ext[..i] == pre;
    assert ext[i] == files[i];
    AnyRejectedSnoc(ext, read);
  }

  // ---------------------------------------------------------------- properties of an upload

  /** Every accepted contract comes from the batch, passed both checks and holds what was read. */
  lemma {:induction false} AcceptedAreValid(files: seq<File>, read: Reader)
    ensures |Accepted(files, read)| <= |files|
    ensures forall c :: c in Accepted(files, read) ==>
      && c.file in files
      && c.file.size <= MaxFileSize
      && c.file.mimeType == PdfMime
      && read(c.file) == Success(c.dataUri)
  {
    if files != [] {
      var init := files[..|files| - 1];
      AcceptedAreValid(init, read);
      assert forall f :: f in init ==> f in files;
    }
  }

  /** Accepting distributes over concatenation: survivors keep their input order. */
  lemma {:induction false} AcceptedAppend(a: seq<File>, b: seq<File>, read: Reader)
    ensures Accepted(a + b, read) == Accepted(a, read) + Accepted(b, read)
    decreases |b|
  {
    if b == [] {
      assert a + b == a;
    } else {
      var b' := b[..|b| - 1];
      assert (a + b)[..|a + b| - 1] == a + b';
      assert (a + b)[|a + b| - 1] == b[|b| - 1];
      AcceptedAppend(a, b', read);
    }
  }

  /** The batch is accepted in full exactly when no file was refused. */
  lemma {:induction false} AllAcceptedIffNoneRejected(files: seq<File>, read: Reader)
    ensures |Accepted(files, read)| <= |files|
    ensures |Accepted(files, read)| == |files| <==> !AnyRejected(files, read)
  {
    if files != [] {
      var init := files[..|files| - 1];
      AllAcceptedIffNoneRejected(init, read);
      AnyRejectedSnoc(files, read);
    }
  }

  /** A batch has a refused file when its prefix has one or its last file is refused. */
  lemma AnyRejectedSnoc(files: seq<File>, read: Reader)
    requires files != []
    ensures AnyRejected(files, read) <==>
      AnyRejected(files[..|files| - 1], read) || !Screen(files[|files| - 1], read).Readable?
  {
    var init := files[..|files| - 1];
    assert forall k :: 0 <= k < |init| ==> init[k] == files[k];
  }

  /** File `j` is refused and every file after it is accepted. */
  predicate IsLastRejection(files: seq<File>, read: Reader, j: int) {
    && 0 <= j < |files|
    && !Screen(files[j], read).Readable?
    && forall k :: j < k < |files| ==> Screen(files[k], read).Readable?
  }

  /** The error slot ends empty exactly when no file was refused. */
  lemma {:induction false} LastErrorEmptyIffNoneRejected(files: seq<File>, read: Reader)
    ensures LastError(files, read).None? <==> !AnyRejected(files, read)
  {
    if files != [] {
      var n := |files| - 1;
      var init := files[..n];
      LastErrorEmptyIffNoneRejected(init, read);
      AnyRejectedSnoc(files, read);
    }
  }

  /** An accepted file at the end keeps the last refusal where it was. */
  lemma LastRejectionExtends(files: seq<File>, read: Reader, j: int)
    requires files != [] && Screen(files[|files| - 1], read).Readable?
    requires IsLastRejection(files[..|files| - 1], read, j)
    ensures IsLastRejection(files, read, j)
  {
    var init := files[..|files| - 1];
    assert forall k :: 0 <= k < |init| ==> files[k] == init[k];
  }

  /** A non-empty error slot holds the message of the last refused file. */
  lemma {:induction false} LastErrorIsLastRejection(files: seq<File>, read: Reader)
    ensures LastError(files, read).Some? ==>
      exists j :: IsLastRejection(files, read, j)
        && LastError(files, read) == Some(RejectionError(files[j], Screen(files[j], read)))
  {
    if files != [] {
      var n := |files| - 1;
      var init := files[..n];
      if !Screen(files[n], read).Readable? {
        assert IsLastRejection(files, read, n);
      } else if LastError(init, read).Some? {
        LastErrorIsLastRejection(init, read);
        var j :| IsLastRejection(init, read, j)
          && LastError(init, read) == Some(RejectionError(init[j], Screen(init[j], read)));
        LastRejectionExtends(files, read, j);
        assert files[j] == init[j];
      }
    }
  }

  /**
   * The closing notification of a non-empty batch: "Upload Successful" exactly
   * when every file was accepted, "Partial Upload" exactly when some were and
   * some were refused, and none when nothing was accepted.
   */
  lemma UploadOutcome(files: seq<File>, read: Reader)
    requires files != []
    ensures var t := FinalToast(|Accepted(files, read)|, AnyRejected(files, read));
      && (t == [UploadSuccessful(|files|)] <==> !AnyRejected(files, read))
      && (t != [] && t[0].PartialUpload? <==> Accepted(files, read) != [] && AnyRejected(files, read))
      && (t == [] <==> Accepted(files, read) == [])
  {
    AllAcceptedIffNoneRejected(files, read);
  }

  // ---------------------------------------------------------------- the chat request

  /** The request the page sends: the trimmed question and one contract per upload, no `isPdf`. */
  function Request(query: string, uploads: seq<UploadedContract>): (r: ChatWithContractsInput)
    ensures r.userQuery == query && |r.contracts| == |uploads|
    ensures forall i :: 0 <= i < |uploads| ==>
      r.contracts[i] == Contract(uploads[i].file.name, uploads[i].dataUri, None)
  {
    ChatWithContractsInput(query, seq(|uploads|, i requires 0 <= i < |uploads| =>
      Contract(uploads[i].file.name, uploads[i].dataUri, None)))
  }

  function UploadNames(uploads: seq<UploadedContract>): seq<string> {
    if uploads == [] then [] else [uploads[0].file.name] + UploadNames(uploads[1..])
  }

  /** The data URIs of the uploads that start with the PDF prefix, in order. */
  function PdfDataUris(uploads: seq<UploadedContract>): seq<string> {
    if uploads == [] then []
    else
      var head := if ChatFlow.IsPdfUri(uploads[0].dataUri) then [uploads[0].dataUri] else [];
      head + PdfDataUris(uploads[1..])
  }

  lemma {:induction false} RequestLists(uploads: seq<UploadedContract>, cs: seq<Contract>)
    requires |cs| == |uploads|
    requires forall i :: 0 <= i < |uploads| ==>
      cs[i] == Contract(uploads[i].file.name, uploads[i].dataUri, None)
    ensures ChatFlow.FileNames(cs) == UploadNames(uploads)
    ensures ChatFlow.PdfUris(cs) == PdfDataUris(uploads)
  {
    if uploads != [] {
      RequestLists(uploads[1..], cs[1..]);
    }
  }

  /**
   * The prompt the model sees for a send: one header per uploaded contract in
   * upload order, media references for exactly the uploads whose data URI is a
   * PDF one, and the question last.
   */
  lemma SendPrompt(query: string, uploads: seq<UploadedContract>)
    ensures var p := ChatFlow.RenderPrompt(ChatFlow.PreparePromptInput(Request(query, uploads)));
      && ChatFlow.HeaderNames(p) == UploadNames(uploads)
      && ChatFlow.MediaUrls(p) == PdfDataUris(uploads)
      && ChatFlow.Last(p) == ChatFlow.Text(ChatFlow.QuestionTail(query))
  {
    var r := Request(query, uploads);
    ChatFlow.ChatPrompt(r);
    RequestLists(uploads, r.contracts);
  }

  /** What the chat action answers to a send of `question` with these uploads. */
  function Reply(chat: ChatAction, question: string, uploads: seq<UploadedContract>): Result<ChatWithContractsOutput, Thrown> {
    chat(Request(question, uploads))
  }

  /** The text of the AI message that closes a send. */
  function ReplyText(reply: Result<ChatWithContractsOutput, Thrown>): string {
    match reply
    case Success(output) => output.aiResponse
    case Failure(_) => Apology
  }

  /** The error slot after a send. */
  function ReplyError(reply: Result<ChatWithContractsOutput, Thrown>): Option<string> {
    match reply
    case Success(_) => None
    case Failure(e) => Some("Chat error: " + MessageOr(e, "An AI processing error occurred."))
  }

  /**
   * When the chat action is the flow itself (its result and thrown message
   * forwarded unchanged), the AI message of a send is the model's `aiResponse`
   * when the model produces an output, and the apology otherwise; a missing
   * output shows the flow's null-output error in the error slot, a rejection
   * its own message.
   */
  lemma ReplyFromModel(query: string, uploads: seq<UploadedContract>, model: ChatFlow.Model)
    ensures var p := ChatFlow.RenderPrompt(ChatFlow.PreparePromptInput(Request(query, uploads)));
      var reply := ChatFlow.ChatWithContracts(Request(query, uploads), model);
      && (model(p).Success? && model(p).value.Some? ==>
            ReplyText(reply) == model(p).value.value.aiResponse && ReplyError(reply) == None)
      && (model(p) == Success(None) ==>
            ReplyText(reply) == Apology
            && ReplyError(reply) == Some("Chat error: " + ChatFlow.NullOutputMessage))
      && (model(p).Failure? ==>
            ReplyText(reply) == Apology
            && ReplyError(reply) == Some("Chat error: " + MessageOr(model(p).error, "An AI processing error occurred.")))
  {
  }

  // ---------------------------------------------------------------- the transcript

  /** A user message as the page writes it: not empty, and no whitespace at either end. */
  predicate IsUserLine(m: Message) {
    && m.sender == User
    && m.text != []
    && !IsJsWhitespace(m.text[0])
    && !IsJsWhitespace(m.text[|m.text| - 1])
  }

  /** Questions and answers alternate, a user message first, each one answered. */
  predicate WellFormedTranscript(ms: seq<Message>)
    decreases |ms|
  {
    ms == [] || (|ms| >= 2 && IsUserLine(ms[0]) && ms[1].sender == Ai && WellFormedTranscript(ms[2..]))
  }

  /** Appending one user line and one AI message keeps the transcript well formed. */
  lemma {:induction false} AppendPair(ms: seq<Message>, question: Message, answer: Message)
    requires WellFormedTranscript(ms)
    requires IsUserLine(question) && answer.sender == Ai
    ensures WellFormedTranscript(ms + [question, answer])
    decreases |ms|
  {
    var pair := [question, answer];
    if ms == [] {
      assert ms + pair == pair;
      assert pair[2..] == [];
    } else {
      AppendPair(ms[2..], question, answer);
      assert (ms + pair)[2..] == ms[2..] + pair;
    }
  }

  /** Appending a trimmed non-blank question and its answer keeps the transcript well formed. */
  lemma AppendExchange(ms: seq<Message>, question: string, answer: string)
    requires WellFormedTranscript(ms)
    requires !IsBlank(question)
    ensures WellFormedTranscript(ms + [Message(User, Trim(question)), Message(Ai, answer)])
  {
    TrimmedQuestionIsUserLine(question);
    AppendPair(ms, Message(User, Trim(question)), Message(Ai, answer));
  }

  /** The trimmed text of a non-blank question is a user line. */
  lemma TrimmedQuestionIsUserLine(question: string)
    requires !IsBlank(question)
    ensures IsUserLine(Message(User, Trim(question)))
  {
  }

  /** Two appends of one element each are one append of both. */
  lemma AppendTwice<T>(s: seq<T>, x: T, y: T)
    ensures s + [x] + [y] == s + [x, y]
  {
  }

  // ---------------------------------------------------------------- the page state

  class ContractChatSession {
    var uploadedContracts: seq<UploadedContract>
    var chatMessages: seq<Message>
    var currentChatInput: string
    var isLoadingUpload: bool
    var isLoadingChatResponse: bool
    var error: Option<string>

    ghost predicate Valid()
      reads this
    {
      WellFormedTranscript(chatMessages)
    }

    /** The page's initial state. */
    constructor ()
      ensures Valid()
      ensures uploadedContracts == [] && chatMessages == [] && currentChatInput == []
      ensures !isLoadingUpload && !isLoadingChatResponse && error == None
    {
      uploadedContracts := [];
      chatMessages := [];
      currentChatInput := [];
      isLoadingUpload := false;
      isLoadingChatResponse := false;
      error := None;
    }

    /** Typing into the input box. */
    method SetChatInput(text: string)
      requires Valid()
      modifies this
      ensures Valid()
      ensures currentChatInput == text
      ensures uploadedContracts == old(uploadedContracts) && chatMessages == old(chatMessages)
      ensures isLoadingUpload == old(isLoadingUpload) && isLoadingChatResponse == old(isLoadingChatResponse)
      ensures error == old(error)
    {
      currentChatInput := text;
    }

    /**
     * Validates the batch file by file, appends the survivors after the
     * existing contracts and reports the outcome. An empty batch changes nothing.
     */
    method HandleFilesUpload(files: seq<File>, read: Reader) returns (toasts: seq<Toast>)
      requires Valid()
      modifies this
      ensures Valid()
      ensures files == [] ==> unchanged(this) && toasts == []
      ensures files != [] ==>
        && uploadedContracts == old(uploadedContracts) + Accepted(files, read)
        && error == LastError(files, read)
        && !isLoadingUpload
        && toasts == FileToasts(files, read) + FinalToast(|Accepted(files, read)|, AnyRejected(files, read))
      ensures files != [] ==>
        && chatMessages == old(chatMessages)
        && currentChatInput == old(currentChatInput)
        && isLoadingChatResponse == old(isLoadingChatResponse)
    {
      toasts := [];
      if |files| == 0 {
        return;
      }
      isLoadingUpload := true;
      error := None;
      var newUploadedContracts: seq<UploadedContract> := [];
      var fileErrorOccurred := false;
      for i := 0 to |files|
        invariant newUploadedContracts == Accepted(files[..i], read)
        invariant fileErrorOccurred == AnyRejected(files[..i], read)
        invariant error == LastError(files[..i], read)
        invariant toasts == FileToasts(files[..i], read)
        invariant uploadedContracts == old(uploadedContracts) && chatMessages == old(chatMessages)
        invariant currentChatInput == old(currentChatInput)
        invariant isLoadingChatResponse == old(isLoadingChatResponse)
      {
        var file := files[i];
        BatchStep(files, i, read);
        if file.size > MaxFileSize {
          error := Some(TooLargeError(file.name));
          toasts := toasts + [FileTooLarge(file.name)];
          fileErrorOccurred := true;
          continue;
        }
        if file.mimeType != PdfMime {
          error := Some(NotPdfError(file.name));
          toasts := toasts + [FileNotPdf(file.name)];
          fileErrorOccurred := true;
          continue;
        }
        match read(file) {
          case Success(dataUri) =>
            newUploadedContracts := newUploadedContracts + [UploadedContract(file, dataUri)];
          case Failure(e) =>
            error := Some(ProcessingError(file.name, e));
            toasts := toasts + [FileProcessingError(file.name)];
            fileErrorOccurred := true;
        }
      }
      assert files[..|files|] == files;
      uploadedContracts := uploadedContracts + newUploadedContracts;
      toasts := toasts + FinalToast(|newUploadedContracts|, fileErrorOccurred);
      isLoadingUpload := false;
    }

    /**
     * Sends the current question: ignored when blank or while a response is
     * loading; refused with an error when nothing is uploaded; otherwise the
     * question and then exactly one AI message join the transcript.
     */
    method HandleSendMessage(chat: ChatAction) returns (toasts: seq<Toast>)
      requires Valid()
      modifies this
      ensures Valid()
      ensures IsBlank(old(currentChatInput)) || old(isLoadingChatResponse) ==>
        unchanged(this) && toasts == []
      ensures !IsBlank(old(currentChatInput)) && !old(isLoadingChatResponse) && old(uploadedContracts) == [] ==>
        && error == Some(NoContractsError) && toasts == [NoContracts]
        && uploadedContracts == old(uploadedContracts) && chatMessages == old(chatMessages)
        && currentChatInput == old(currentChatInput)
        && isLoadingUpload == old(isLoadingUpload) && isLoadingChatResponse == old(isLoadingChatResponse)
      ensures !IsBlank(old(currentChatInput)) && !old(isLoadingChatResponse) && old(uploadedContracts) != [] ==>
        var question := Trim(old(currentChatInput));
        var reply := Reply(chat, question, old(uploadedContracts));
        && chatMessages == old(chatMessages) + [Message(User, question), Message(Ai, ReplyText(reply))]
        && currentChatInput == []
        && !isLoadingChatResponse
        && error == ReplyError(reply)
        && toasts == (if reply.Success? then [] else [ChatError])
        && uploadedContracts == old(uploadedContracts)
        && isLoadingUpload == old(isLoadingUpload)
    {
      toasts := [];
      if IsBlank(currentChatInput) || isLoadingChatResponse {
        return;
      }
      if |uploadedContracts| == 0 {
        error := Some(NoContractsError);
        toasts := [NoContracts];
        return;
      }
      var question := Trim(currentChatInput);
      TrimmedQuestionIsUserLine(currentChatInput);
      toasts := AskAndRecord(question, chat);
    }

    /**
     * The part of a send after both guards have passed: the trimmed question
     * is recorded, the chat action is asked once, and its reply is recorded.
     */
    method AskAndRecord(question: string, chat: ChatAction) returns (toasts: seq<Toast>)
      requires Valid() && IsUserLine(Message(User, question))
      modifies this
      ensures Valid()
      ensures var reply := Reply(chat, question, old(uploadedContracts));
        && chatMessages == old(chatMessages) + [Message(User, question), Message(Ai, ReplyText(reply))]
        && currentChatInput == []
        && !isLoadingChatResponse
        && error == ReplyError(reply)
        && toasts == (if reply.Success? then [] else [ChatError])
        && uploadedContracts == old(uploadedContracts)
        && isLoadingUpload == old(isLoadingUpload)
    {
      toasts := [];
      ghost var history := chatMessages;
      var userMessage := Message(User, question);
      chatMessages := chatMessages + [userMessage];
      currentChatInput := [];
      isLoadingChatResponse := true;
      error := None;

      var result := Reply(chat, userMessage.text, uploadedContracts);
      match result {
        case Success(output) =>
          AppendTwice(history, userMessage, Message(Ai, output.aiResponse));
          chatMessages := chatMessages + [Message(Ai, output.aiResponse)];
        case Failure(e) =>
          error := Some("Chat error: " + MessageOr(e, "An AI processing error occurred."));
          toasts := [ChatError];
          AppendTwice(history, userMessage, Message(Ai, Apology));
          chatMessages := chatMessages + [Message(Ai, Apology)];
      }
      assert chatMessages == history + [userMessage, Message(Ai, ReplyText(result))];
      AppendPair(history, userMessage, Message(Ai, ReplyText(result)));
      isLoadingChatResponse := false;
    }

    /** Clears the whole session. */
    method ResetState() returns (toasts: seq<Toast>)
      requires Valid()
      modifies this
      ensures Valid()
      ensures uploadedContracts == [] && chatMessages == [] && currentChatInput == []
      ensures error == None && !isLoadingUpload && !isLoadingChatResponse
      ensures toasts == [ResetComplete]
    {
      uploadedContracts := [];
      chatMessages := [];
      currentChatInput := [];
      error := None;
      isLoadingUpload := false;
      isLoadingChatResponse := false;
      toasts := [ResetComplete];
    }
  }
}
