/**
 * The chat page's turn state (`src/app/chat/page.tsx`): admitting a batch
 * of files as attachments, removing one, and sending a message to the
 * tutor. React state updates are taken as immediate assignments, one
 * after the other.
 */
module Chat {
  import opened Results
  import opened Text
  import opened FileExtractor
  import opened Ai

  const MaxFileSize: nat := 5 * 1024 * 1024
  const MaxFiles: nat := 3
  const AttachmentsOnly := "(Archivos adjuntos)"
  const NoReply := "Lo siento, no pude generar una respuesta."
  const ConnectionError := "Error al conectar con el tutor."

  /** The alerts `processFiles` raises. */
  datatype Warning = TooManyFiles | FileTooLarge(fileName: string) | ProcessingFailed(fileName: string)

  /** What becomes of one file of an admitted batch. */
  datatype Admission = Admitted(attachment: Attachment) | Refused(warning: Warning)

  /** The attachments and warnings a batch produces. */
  datatype Batch = Batch(attachments: seq<Attachment>, warnings: seq<Warning>)

  /**
   * One iteration of the `processFiles` loop: the size check, the payload
   * conversion (`fileToBase64`, whose failure raises the processing alert),
   * and a best-effort extraction that sets `extractedText` only to a
   * non-empty result and never keeps the file from being attached.
   */
  function AdmitOne(file: Upload, id: string, engines: Engines, toBase64: seq<byte> -> Result<string>): (a: Admission)
    ensures a == Refused(FileTooLarge(file.name)) <==> file.size > MaxFileSize
    ensures a.Admitted? <==> file.size <= MaxFileSize && toBase64(file.bytes).Ok?
    ensures a.Refused? && file.size <= MaxFileSize ==> a.warning == ProcessingFailed(file.name)
    ensures a.Admitted? ==>
              && a.attachment.id == id
              && a.attachment.fileName == file.name
              && a.attachment.fileType == file.fileType
              && a.attachment.fileSize == file.size
              && a.attachment.base64Data == toBase64(file.bytes).value
    ensures a.Admitted? ==>
              var extracted := ExtractTextFromFile(engines, file, Some(a.attachment.base64Data));
              && (a.attachment.extractedText.Some? <==>
                    CanExtractText(file.fileType, file.name) && extracted.Ok? && extracted.value != "")
              && (a.attachment.extractedText.Some? ==> a.attachment.extractedText.value == extracted.value)
  {
    if file.size > MaxFileSize then Refused(FileTooLarge(file.name))
    else match toBase64(file.bytes)
      case Err(_) => Refused(ProcessingFailed(file.name))
      case Ok(payload) =>
        var attachment := Attachment(id, file.name, file.fileType, file.size, payload, None);
        if CanExtractText(file.fileType, file.name) then
          match ExtractTextFromFile(engines, file, Some(payload))
          case Ok(text) =>
            if text != "" then Admitted(attachment.(extractedText := Some(text))) else Admitted(attachment)
          case Err(_) => Admitted(attachment)
        else Admitted(attachment)
  }

  /** What becomes of each file of a batch, the i-th with the i-th fresh id. */
  function Admissions(files: seq<Upload>, ids: seq<string>, engines: Engines, toBase64: seq<byte> -> Result<string>): (r: seq<Admission>)
    requires |ids| == |files|
    ensures |r| == |files|
    ensures forall i :: 0 <= i < |files| ==> r[i] == AdmitOne(files[i], ids[i], engines, toBase64)
  {
    seq(|files|, i requires 0 <= i < |files| => AdmitOne(files[i], ids[i], engines, toBase64))
  }

  /** The admitted attachments and the warnings, each in batch order. */
  function Collect(admissions: seq<Admission>): (b: Batch)
    ensures |b.attachments| + |b.warnings| == |admissions|
  {
    if admissions == [] then Batch([], [])
    else
      var earlier := Collect(admissions[..|admissions| - 1]);
      match admissions[|admissions| - 1]
      case Admitted(att) => Batch(earlier.attachments + [att], earlier.warnings)
      case Refused(w) => Batch(earlier.attachments, earlier.warnings + [w])
  }

  /** The outcome of a whole batch. */
  function AdmitAll(files: seq<Upload>, ids: seq<string>, engines: Engines, toBase64: seq<byte> -> Result<string>): (b: Batch)
    requires |ids| == |files|
    ensures |b.attachments| + |b.warnings| == |files|
  {
    Collect(Admissions(files, ids, engines, toBase64))
  }

  lemma {:induction false} CollectAppend(a: seq<Admission>, b: seq<Admission>)
    ensures Collect(a + b) == Batch(Collect(a).attachments + Collect(b).attachments, Collect(a).warnings + Collect(b).warnings)
    decreases |b|
  {
    if b == [] {
      assert a + b == a;
    } else {
      var n := |b| - 1;
      var ab := a + b;
      assert ab[..|ab| - 1] == a + b[..n];
      assert ab[|ab| - 1] == b[n];
      CollectAppend(a, b[..n]);
      var ca, cb := Collect(a), Collect(b[..n]);
      match b[n]
      case Admitted(att) =>
        assert ca.attachments + (cb.attachments + [att]) == ca.attachments + cb.attachments + [att];
      case Refused(w) =>
        assert ca.warnings + (cb.warnings + [w]) == ca.warnings + cb.warnings + [w];
    }
  }

  /**
   * A refused file does not stop the others: the batch `f1 + f2` yields the
   * attachments of `f1` then those of `f2`, and likewise the warnings.
   */
  lemma AdmitAllAppend(f1: seq<Upload>, i1: seq<string>, f2: seq<Upload>, i2: seq<string>,
                       engines: Engines, toBase64: seq<byte> -> Result<string>)
    requires |i1| == |f1| && |i2| == |f2|
    ensures var b1 := AdmitAll(f1, i1, engines, toBase64);
            var b2 := AdmitAll(f2, i2, engines, toBase64);
            AdmitAll(f1 + f2, i1 + i2, engines, toBase64)
            == Batch(b1.attachments + b2.attachments, b1.warnings + b2.warnings)
  {
    var a1, a2 := Admissions(f1, i1, engines, toBase64), Admissions(f2, i2, engines, toBase64);
    var a := Admissions(f1 + f2, i1 + i2, engines, toBase64);
    assert a == a1 + a2 by {
      forall k | 0 <= k < |a|
        ensures a[k] == (a1 + a2)[k]
      {
        if k < |f1| {
          assert (f1 + f2)[k] == f1[k] && (i1 + i2)[k] == i1[k];
        } else {
          assert (f1 + f2)[k] == f2[k - |f1|] && (i1 + i2)[k] == i2[k - |f1|];
        }
      }
    }
    CollectAppend(a1, a2);
  }

  /** A batch of one file yields that file's admission. */
  lemma AdmitAllSingle(file: Upload, id: string, engines: Engines, toBase64: seq<byte> -> Result<string>)
    ensures var b := AdmitAll([file], [id], engines, toBase64);
            match AdmitOne(file, id, engines, toBase64)
            case Admitted(att) => b == Batch([att], [])
            case Refused(w) => b == Batch([], [w])
  {
    var a := Admissions([file], [id], engines, toBase64);
    assert a[..0] == [];
  }

  /** A file of exactly 5 MiB is accepted (when its payload can be built); one byte more is refused. */
  lemma SizeLimitIsInclusive(file: Upload, id: string, engines: Engines, toBase64: seq<byte> -> Result<string>)
    requires toBase64(file.bytes).Ok?
    ensures file.size == 5 * 1024 * 1024 ==> AdmitOne(file, id, engines, toBase64).Admitted?
    ensures file.size == 5 * 1024 * 1024 + 1 ==> AdmitOne(file, id, engines, toBase64) == Refused(FileTooLarge(file.name))
  {
  }

  /** `selectedFiles.filter(f => f.id !== id)`. */
  function WithoutId(files: seq<Attachment>, id: string): (r: seq<Attachment>)
    ensures |r| <= |files|
    ensures forall a :: a in r <==> a in files && a.id != id
  {
    if files == [] then []
    else (if files[0].id != id then [files[0]] else []) + WithoutId(files[1..], id)
  }

  /** Removal keeps the rest in order: it distributes over concatenation. */
  lemma {:induction false} WithoutIdAppend(a: seq<Attachment>, b: seq<Attachment>, id: string)
    ensures WithoutId(a + b, id) == WithoutId(a, id) + WithoutId(b, id)
    decreases |a|
  {
    if a == [] {
      assert a + b == b;
    } else {
      assert (a + b)[1..] == a[1..] + b;
      WithoutIdAppend(a[1..], b, id);
    }
  }

  /** Removing an id nobody has changes nothing. */
  lemma {:induction false} WithoutAbsentId(files: seq<Attachment>, id: string)
    requires forall k :: 0 <= k < |files| ==> files[k].id != id
    ensures WithoutId(files, id) == files
    decreases |files|
  {
    if files != [] {
      WithoutAbsentId(files[1..], id);
    }
  }

  /** The early return of `handleSend` does not happen: nothing is loading and there is text or a file. */
  predicate CanSend(input: string, selected: seq<Attachment>, loading: bool) {
    !((Trim(input) == "" && |selected| == 0) || loading)
  }

  /** `userMessage`. */
  function UserMessage(input: string, selected: seq<Attachment>): (m: Message)
    ensures m.role == "user"
    ensures input != "" ==> m.content == input
    ensures input == "" ==> m.content == AttachmentsOnly
    ensures m.attachments.None? <==> selected == []
    ensures m.attachments.Some? ==> m.attachments.value == selected
  {
    Message("user", if input == "" then AttachmentsOnly else input,
            if |selected| > 0 then Some(selected) else None)
  }

  /** Whitespace-only input sent with files is sent as it is, not replaced by the placeholder. */
  lemma WhitespaceInputKept(input: string, selected: seq<Attachment>)
    requires input != "" && AllWhitespace(input) && selected != []
    ensures CanSend(input, selected, false)
    ensures UserMessage(input, selected).content == input
  {
  }

  /** Whitespace-only input without files sends nothing. */
  lemma WhitespaceInputAloneIgnored(input: string)
    requires AllWhitespace(input)
    ensures !CanSend(input, [], false)
  {
    TrimEmptyIffAllWhitespace(input);
  }

  /** The assistant message's content for how the awaited reply settled. */
  function AssistantContent(outcome: Result<string>): (c: string)
    ensures c != ""
    ensures outcome.Ok? && outcome.value != "" ==> c == outcome.value
    ensures outcome.Ok? && outcome.value == "" ==> c == NoReply
    ensures outcome.Err? ==> c == ConnectionError
  {
    match outcome
    case Ok(reply) => if reply == "" then NoReply else reply
    case Err(_) => ConnectionError
  }

  /**
   * `chatWithAI` always resolves to a non-empty reply, so the assistant
   * message shows the tutor's reply itself and the empty-reply fallback is
   * never shown.
   */
  lemma TutorReplyShownVerbatim(token: Option<string>, messages: seq<Message>, user: Option<UserContext>, provider: Provider)
    ensures AssistantContent(Ok(ChatReply(token, messages, user, provider))) == ChatReply(token, messages, user, provider)
  {
  }

  class ChatPage {
    var messages: seq<Message>
    var input: string
    var loading: bool
    var selectedFiles: seq<Attachment>
    /** The learner restored from the session, if any. */
    const user: Option<UserContext>

    /** At most `MaxFiles` attachments are pending. */
    ghost predicate Valid()
      reads this
    {
      |selectedFiles| <= MaxFiles
    }

    constructor (user: Option<UserContext>)
      ensures Valid()
      ensures messages == [] && input == "" && !loading && selectedFiles == [] && this.user == user
    {
      messages, input, loading, selectedFiles := [], "", false, [];
      this.user := user;
    }

    /** The input field's change handler. */
    method SetInput(text: string)
      modifies this`input
      ensures input == text
    {
      input := text;
    }

    /**
     * `processFiles`: a batch that would bring the pending attachments over
     * three is refused whole; otherwise each file is admitted or refused on
     * its own and the admitted ones are appended, in batch order. `ids` are
     * the identifiers the clock and random source would give, one per file.
     */
    method ProcessFiles(files: seq<Upload>, ids: seq<string>, engines: Engines, toBase64: seq<byte> -> Result<string>)
      returns (warnings: seq<Warning>)
      requires |ids| == |files|
      requires Valid()
      modifies this`selectedFiles
      ensures Valid()
      ensures |old(selectedFiles)| + |files| > MaxFiles ==>
                selectedFiles == old(selectedFiles) && warnings == [TooManyFiles]
      ensures |old(selectedFiles)| + |files| <= MaxFiles ==>
                var b := AdmitAll(files, ids, engines, toBase64);
                selectedFiles == old(selectedFiles) + b.attachments && warnings == b.warnings
    {
      if |selectedFiles| + |files| > MaxFiles {
        return [TooManyFiles];
      }
      var newAttachments: seq<Attachment> := [];
      warnings := [];
      ghost var admissions := Admissions(files, ids, engines, toBase64);
      for i := 0 to |files|
        invariant Collect(admissions[..i]) == Batch(newAttachments, warnings)
      {
        assert admissions[..i + 1][..i] == admissions[..i];
        var file := files[i];
        if file.size > MaxFileSize {
          warnings := warnings + [FileTooLarge(file.name)];
        } else {
          var base64 := toBase64(file.bytes);
          if base64.Err? {
            warnings := warnings + [ProcessingFailed(file.name)];
          } else {
            var attachment := Attachment(ids[i], file.name, file.fileType, file.size, base64.value, None);
            if CanExtractText(file.fileType, file.name) {
              var extracted := ExtractTextFromFile(engines, file, Some(base64.value));
              if extracted.Ok? && extracted.value != "" {
                attachment := attachment.(extractedText := Some(extracted.value));
              }
            }
            newAttachments := newAttachments + [attachment];
          }
        }
      }
      assert admissions[..|files|] == admissions;
      selectedFiles := selectedFiles + newAttachments;
    }

    /** `removeFile`. */
    method RemoveFile(id: string)
      requires Valid()
      modifies this`selectedFiles
      ensures Valid()
      ensures selectedFiles == WithoutId(old(selectedFiles), id)
    {
      selectedFiles := WithoutId(selectedFiles, id);
    }

    /**
     * The part of `handleSend` before the await: the guard, then the user
     * message is appended, input and selection are cleared and loading is
     * set. Returns the conversation sent to the tutor, or nothing when the
     * guard returns early.
     */
    method BeginSend() returns (request: Option<seq<Message>>)
      modifies this`messages, this`input, this`selectedFiles, this`loading
      ensures !CanSend(old(input), old(selectedFiles), old(loading)) ==>
                request.None? && messages == old(messages) && input == old(input)
                && selectedFiles == old(selectedFiles) && loading == old(loading)
      ensures CanSend(old(input), old(selectedFiles), old(loading)) ==>
                messages == old(messages) + [UserMessage(old(input), old(selectedFiles))]
                && request == Some(messages)
                && input == "" && selectedFiles == [] && loading
    {
      if !CanSend(input, selectedFiles, loading) {
        return None;
      }
      StartTurn();
      return Some(messages);
    }

    /** The user message is appended, input and selection are cleared and loading is set. */
    method StartTurn()
      modifies this`messages, this`input, this`selectedFiles, this`loading
      ensures messages == old(messages) + [UserMessage(old(input), old(selectedFiles))]
      ensures input == "" && selectedFiles == [] && loading
    {
      var userMessage := UserMessage(input, selectedFiles);
      messages := messages + [userMessage];
      input := "";
      selectedFiles := [];
      loading := true;
    }

    /** The part of `handleSend` after the await: the assistant message, then loading is cleared. */
    method FinishSend(outcome: Result<string>)
      modifies this`messages, this`loading
      ensures messages == old(messages) + [Message("assistant", AssistantContent(outcome), None)]
      ensures !loading
    {
      messages := messages + [Message("assistant", AssistantContent(outcome), None)];
      loading := false;
    }

    /**
     * `handleSend`: one turn with the tutor. Returns the models the tutor
     * asked, in order.
     */
    method HandleSend(token: Option<string>, provider: Provider) returns (tried: seq<string>)
      requires Valid()
      modifies this`messages, this`input, this`selectedFiles, this`loading
      ensures Valid()
      ensures !CanSend(old(input), old(selectedFiles), old(loading)) ==>
                tried == [] && messages == old(messages) && input == old(input)
                && selectedFiles == old(selectedFiles) && loading == old(loading)
      ensures CanSend(old(input), old(selectedFiles), old(loading)) ==>
                var sent := old(messages) + [UserMessage(old(input), old(selectedFiles))];
                && messages == sent + [Message("assistant", ChatReply(token, sent, user, provider), None)]
                && tried == ChatModelsTried(token, sent, user, provider)
                && input == "" && selectedFiles == [] && !loading
    {
      var request := BeginSend();
      if request.None? {
        return [];
      }
      var reply;
      reply, tried := ChatWithAI(token, request.value, user, provider);
      FinishSend(Ok(reply));
    }
  }
}
