/**
 * The tutor's completion request (`src/lib/ai.ts`, `chatWithAI`): the
 * system preamble, its injection in front of the conversation, the
 * attachment text folded into each message, and the ordered fallback over
 * the model list.
 *
 * The inference client is not modelled: a `Provider` stands for what the
 * remote service answers when asked to complete the given messages with
 * the given model.
 */
module Ai {
  import opened Results
  import opened Text

  /** An attachment record (an element of `attachments`). */
  datatype Attachment = Attachment(
    id: string,
    fileName: string,
    fileType: string,
    fileSize: nat,
    base64Data: string,
    extractedText: Option<string>)

  /** A conversation turn with its role tag and optional attachments. */
  datatype Message = Message(role: string, content: string, attachments: Option<seq<Attachment>>)

  /** The learner profile. */
  datatype UserContext = UserContext(name: string, career: string)

  /** A message as sent to the provider: role and text only. */
  datatype ProviderMessage = ProviderMessage(role: string, content: string)

  /**
   * What one completion request yields: an error (thrown by the client), or
   * the content of the first choice, with `""` standing also for an absent
   * choice or content.
   */
  datatype ProviderOutcome = ProviderError(reason: string) | Completion(content: string)

  type Provider = (string, seq<ProviderMessage>) -> ProviderOutcome

  /** `AI_MODELS`, in priority order. */
  const AiModels: seq<string> := [
    "deepseek-ai/DeepSeek-V3.2-Exp:novita",
    "meta-llama/Llama-3.1-8B-Instruct:novita",
    "mistralai/Mistral-7B-Instruct-v0.2:featherless-ai",
    "HuggingFaceH4/zephyr-7b-beta:featherless-ai"
  ]

  const TokenMissing := "Error: No se ha configurado el token de Hugging Face."
  const Apology := "Lo siento, el servicio de IA no está disponible en este momento. Por favor intenta más tarde."
  const BasePersona := "Eres un tutor académico útil y amigable de la Universidad Francisco Gavidia (UFG). Ayudas a los estudiantes con sus dudas académicas de manera clara y concisa."
  const ImageClause := "\n\nEl usuario ha compartido imágenes. Aunque no puedo ver las imágenes directamente, puedo ayudarte con preguntas sobre el contexto o el tema relacionado."
  const TruncationCap: nat := 2000
  const TruncationMarker := "...[texto truncado]"

  function ProfileClause(user: UserContext): string {
    "\n\nEstás ayudando a " + user.name + ", estudiante de " + user.career
    + ". Personaliza tus respuestas considerando su área de estudio."
  }

  // ---------------------------------------------------------------- system preamble

  predicate IsImageType(fileType: string) {
    StartsWith(fileType, "image/")
  }

  predicate MessageHasImage(m: Message) {
    m.attachments.Some? && exists j :: 0 <= j < |m.attachments.value| && IsImageType(m.attachments.value[j].fileType)
  }

  /** `hasImages`: checks the messages one after the other for an image attachment. */
  function HasImages(messages: seq<Message>): (r: bool)
    ensures r <==> exists i :: 0 <= i < |messages| && MessageHasImage(messages[i])
  {
    if messages == [] then false
    else MessageHasImage(messages[0]) || HasImages(messages[1..])
  }

  /**
   * `systemContent`: the persona text, then the profile clause when a profile
   * is given, then the image clause when some attachment is an image.
   */
  function SystemPreamble(user: Option<UserContext>, hasImages: bool): (r: string)
    ensures StartsWith(r, BasePersona)
    ensures user.Some? ==> StartsWith(r, BasePersona + ProfileClause(user.value))
    ensures |r| == |BasePersona| + (if user.Some? then |ProfileClause(user.value)| else 0)
                 + (if hasImages then |ImageClause| else 0)
    ensures hasImages <==> EndsWith(r, ImageClause)
    ensures user.None? && !hasImages ==> r == BasePersona
  {
    var withProfile := if user.Some? then BasePersona + ProfileClause(user.value) else BasePersona;
    var r := if hasImages then withProfile + ImageClause else withProfile;
    PreamblePrefix(user, hasImages, withProfile, r);
    PreambleEnding(user, hasImages, withProfile, r);
    r
  }

  lemma PreamblePrefix(user: Option<UserContext>, hasImages: bool, withProfile: string, r: string)
    requires withProfile == if user.Some? then BasePersona + ProfileClause(user.value) else BasePersona
    requires r == if hasImages then withProfile + ImageClause else withProfile
    ensures StartsWith(r, BasePersona)
    ensures user.Some? ==> StartsWith(r, BasePersona + ProfileClause(user.value))
  {
    var b := |BasePersona|;
    assert r[..b] == BasePersona;
    if user.Some? {
      var p := ProfileClause(user.value);
      assert r[..b + |p|] == BasePersona + p;
    }
  }

  /** The preamble ends in the image notice exactly when there are images: without it, it ends in "...estudio." or "...concisa.". */
  lemma PreambleEnding(user: Option<UserContext>, hasImages: bool, withProfile: string, r: string)
    requires withProfile == if user.Some? then BasePersona + ProfileClause(user.value) else BasePersona
    requires r == if hasImages then withProfile + ImageClause else withProfile
    ensures hasImages <==> EndsWith(r, ImageClause)
  {
    if !hasImages {
      if user.Some? {
        var tail := ". Personaliza tus respuestas considerando su área de estudio.";
        assert EndsWith(ProfileClause(user.value), tail);
        assert r[|r| - 3] == tail[|tail| - 3] == 'i';
        assert ImageClause[|ImageClause| - 3] == 'd';
      } else {
        assert r[|r| - 2] == 'a';
        assert ImageClause[|ImageClause| - 2] == 'o';
      }
    }
  }


  // ---------------------------------------------------------------- system-message injection

  predicate StartsWithSystem(messages: seq<Message>) {
    |messages| > 0 && messages[0].role == "system"
  }

  /**
   * `messagesWithSystem`: the conversation as given when it already opens
   * with a system message, otherwise the preamble as a system message in
   * front of it.
   */
  function WithSystem(messages: seq<Message>, preamble: string): (r: seq<Message>)
    ensures |r| > 0 && r[0].role == "system"
    ensures |r| >= |messages| && r[|r| - |messages|..] == messages
    ensures StartsWithSystem(messages) ==> r == messages
    ensures !StartsWithSystem(messages) ==> |r| == |messages| + 1 && r[0] == Message("system", preamble, None)
  {
    if StartsWithSystem(messages) then messages
    else [Message("system", preamble, None)] + messages
  }

  // ---------------------------------------------------------------- attachment text

  /** `truncatedText`: text over the cap keeps its first 2000 characters and gets the marker. */
  function Truncate(text: string): (r: string)
    ensures |text| <= TruncationCap ==> r == text
    ensures |text| > TruncationCap ==>
              |r| == TruncationCap + |TruncationMarker|
              && r[..TruncationCap] == text[..TruncationCap]
              && r[TruncationCap..] == TruncationMarker
    ensures |r| <= TruncationCap + |TruncationMarker|
  {
    if |text| > TruncationCap then text[..TruncationCap] + TruncationMarker else text
  }

  /** The boundary: 2000 characters pass unchanged, 2001 are cut to 2000 plus the marker. */
  lemma TruncationBoundary(text: string)
    ensures |text| == 2000 ==> Truncate(text) == text
    ensures |text| == 2001 ==> Truncate(text) == text[..2000] + TruncationMarker
  {
  }

  /** `att.extractedText` is truthy: present and not empty. */
  predicate HasText(att: Attachment) {
    att.extractedText.Some? && att.extractedText.value != ""
  }

  const ContentOpen := "\n\n[Contenido de \""
  const ContentSeparator := "\":\n"
  const NoticeOpen := "\n\n[El usuario ha adjuntado "

  /** The category an attachment without text is announced as. */
  function NoticeKind(fileType: string): string {
    if IsImageType(fileType) then "imagen" else "archivo"
  }

  /** The text one attachment appends to its message. */
  function AttachmentBlock(att: Attachment): string {
    if HasText(att) then
      ContentOpen + att.fileName + ContentSeparator + Truncate(att.extractedText.value) + "]"
    else
      NoticeOpen + NoticeKind(att.fileType) + ": " + att.fileName + "]"
  }

  /** The blocks of `attachments`, in attachment order. */
  function AttachmentBlocks(attachments: seq<Attachment>): string {
    ConcatMap(AttachmentBlock, attachments)
  }

  /** Blocks are appended in attachment order: those of `a + b` are those of `a`, then those of `b`. */
  lemma AttachmentBlocksAppend(a: seq<Attachment>, b: seq<Attachment>)
    ensures AttachmentBlocks(a + b) == AttachmentBlocks(a) + AttachmentBlocks(b)
  {
    ConcatMapAppend(AttachmentBlock, a, b);
  }

  /**
   * An attachment without text is announced by name, as an image exactly
   * when its type starts with `image/`; one with text embeds it whole when
   * short, and its first `TruncationCap` characters and the marker otherwise.
   */
  lemma AttachmentBlockShape(att: Attachment)
    ensures !HasText(att) && IsImageType(att.fileType) ==>
              AttachmentBlock(att) == "\n\n[El usuario ha adjuntado imagen: " + att.fileName + "]"
    ensures !HasText(att) && !IsImageType(att.fileType) ==>
              AttachmentBlock(att) == "\n\n[El usuario ha adjuntado archivo: " + att.fileName + "]"
    ensures HasText(att) && |att.extractedText.value| <= TruncationCap ==>
              AttachmentBlock(att) == "\n\n[Contenido de \"" + att.fileName + "\":\n" + att.extractedText.value + "]"
    ensures HasText(att) && |att.extractedText.value| > TruncationCap ==>
              AttachmentBlock(att) == "\n\n[Contenido de \"" + att.fileName + "\":\n"
                                      + att.extractedText.value[..TruncationCap] + TruncationMarker + "]"
    ensures HasText(att) ==>
              |AttachmentBlock(att)| <= |att.fileName| + TruncationCap + |TruncationMarker| + 21
  {
    if !HasText(att) {
      if IsImageType(att.fileType) {
        assert NoticeOpen + "imagen" == "\n\n[El usuario ha adjuntado imagen";
      } else {
        assert NoticeOpen + "archivo" == "\n\n[El usuario ha adjuntado archivo";
      }
    }
  }

  /** The content a message carries to the provider. */
  function ProviderContent(m: Message): string {
    if m.attachments.Some? && |m.attachments.value| > 0 then m.content + AttachmentBlocks(m.attachments.value)
    else m.content
  }

  /** One element of `textMessages`: same role, content followed by its attachment blocks. */
  function ToProviderMessage(m: Message): (r: ProviderMessage)
    ensures r.role == m.role
    ensures StartsWith(r.content, m.content)
    ensures m.attachments.Some? ==> r.content == m.content + AttachmentBlocks(m.attachments.value)
    ensures m.attachments.None? ==> r.content == m.content
  {
    ProviderMessage(m.role, ProviderContent(m))
  }

  /** The per-message `forEach`: appends each attachment's block to `content`, in order. */
  method AugmentContent(content: string, attachments: seq<Attachment>) returns (c: string)
    ensures c == content + AttachmentBlocks(attachments)
  {
    c := content;
    for i := 0 to |attachments|
      invariant c == content + ConcatMap(AttachmentBlock, attachments[..i])
    {
      var block := AttachmentBlock(attachments[i]);
      ConcatMapStep(AttachmentBlock, attachments, i, content);
      c := c + block;
    }
    assert attachments[..|attachments|] == attachments;
  }

  /** `textMessages`: each message mapped to its provider form, one to one and in order. */
  method PrepareMessages(messages: seq<Message>) returns (out: seq<ProviderMessage>)
    ensures |out| == |messages|
    ensures forall i :: 0 <= i < |messages| ==> out[i] == ToProviderMessage(messages[i])
  {
    out := [];
    for i := 0 to |messages|
      invariant |out| == i
      invariant forall k :: 0 <= k < i ==> out[k] == ToProviderMessage(messages[k])
    {
      var msg := messages[i];
      var content := msg.content;
      if msg.attachments.Some? && |msg.attachments.value| > 0 {
        content := AugmentContent(content, msg.attachments.value);
      }
      out := out + [ProviderMessage(msg.role, content)];
    }
  }

  /** `messagesWithSystem.map(...)`: each message in its provider form, in order. */
  function ToProviderMessages(messages: seq<Message>): (r: seq<ProviderMessage>)
    ensures |r| == |messages|
    ensures forall i :: 0 <= i < |messages| ==> r[i] == ToProviderMessage(messages[i])
  {
    seq(|messages|, i requires 0 <= i < |messages| => ToProviderMessage(messages[i]))
  }

  /**
   * `ctx` is the conversation `messages` as the provider receives it: a
   * system message first (the preamble, unless the conversation already
   * opens with a system message), then every message in order with its
   * role and with its content at the head of the content sent.
   */
  ghost predicate CarriesConversation(messages: seq<Message>, preamble: string, ctx: seq<ProviderMessage>) {
    && |ctx| > 0
    && |ctx| == |messages| + (if StartsWithSystem(messages) then 0 else 1)
    && ctx[0].role == "system"
    && (!StartsWithSystem(messages) ==> ctx[0].content == preamble)
    && forall i :: |ctx| - |messages| <= i < |ctx| ==>
         ctx[i].role == messages[i - (|ctx| - |messages|)].role
         && StartsWith(ctx[i].content, messages[i - (|ctx| - |messages|)].content)
  }

  /**
   * The messages sent to every model: the conversation with the preamble
   * injected when it does not open with a system message, each content
   * followed by its attachment blocks.
   */
  function BuildContext(messages: seq<Message>, user: Option<UserContext>): (ctx: seq<ProviderMessage>)
    ensures CarriesConversation(messages, SystemPreamble(user, HasImages(messages)), ctx)
  {
    var preamble := SystemPreamble(user, HasImages(messages));
    var all := WithSystem(messages, preamble);
    var ctx := ToProviderMessages(all);
    ContextFacts(messages, preamble, all, ctx);
    ctx
  }

  lemma ContextIsMapped(messages: seq<Message>, user: Option<UserContext>)
    ensures BuildContext(messages, user)
         == ToProviderMessages(WithSystem(messages, SystemPreamble(user, HasImages(messages))))
  {
  }

  lemma ContextFacts(messages: seq<Message>, preamble: string, all: seq<Message>, ctx: seq<ProviderMessage>)
    requires all == WithSystem(messages, preamble)
    requires ctx == ToProviderMessages(all)
    ensures CarriesConversation(messages, preamble, ctx)
  {
    var off := |all| - |messages|;
    assert ctx[0] == ToProviderMessage(all[0]);
    forall i | off <= i < |ctx|
      ensures ctx[i].role == messages[i - off].role && StartsWith(ctx[i].content, messages[i - off].content)
    {
      assert all[off..][i - off] == messages[i - off];
      assert ctx[i] == ToProviderMessage(messages[i - off]);
    }
  }

  /** With no history entries beyond one plain question and no profile, the context is the persona then the question. */
  lemma PlainQuestionContext()
    ensures BuildContext([Message("user", "¿Qué es una célula?", None)], None)
            == [ProviderMessage("system", BasePersona), ProviderMessage("user", "¿Qué es una célula?")]
  {
    var ms := [Message("user", "¿Qué es una célula?", None)];
    assert !MessageHasImage(ms[0]);
    assert !HasImages(ms);
  }

  /** One image attachment without text: the preamble has both the persona and the image clause. */
  lemma ImageOnlyContext(content: string, image: Attachment)
    requires IsImageType(image.fileType) && image.extractedText.None?
    ensures var ms := [Message("user", content, Some([image]))];
            BuildContext(ms, None)[0].content == BasePersona + ImageClause
  {
    var ms := [Message("user", content, Some([image]))];
    assert ms[0].attachments.value[0] == image;
    assert MessageHasImage(ms[0]);
  }

  // ---------------------------------------------------------------- ordered fallback

  /** `if (response)`: a completion with non-empty content. */
  predicate Usable(o: ProviderOutcome) {
    o.Completion? && o.content != ""
  }

  /** The position, from `from` on, of the first model whose answer is usable. */
  function FirstUsable(models: seq<string>, request: seq<ProviderMessage>, provider: Provider, from: nat): (k: Option<nat>)
    requires from <= |models|
    ensures k.Some? ==> from <= k.value < |models| && Usable(provider(models[k.value], request))
    ensures k.Some? ==> forall j :: from <= j < k.value ==> !Usable(provider(models[j], request))
    ensures k.None? ==> forall j :: from <= j < |models| ==> !Usable(provider(models[j], request))
    decreases |models| - from
  {
    if from == |models| then None
    else if Usable(provider(models[from], request)) then Some(from)
    else FirstUsable(models, request, provider, from + 1)
  }

  /** The reply the fallback returns: the first usable answer, or the apology. */
  function FallbackReply(models: seq<string>, request: seq<ProviderMessage>, provider: Provider): (r: string)
    ensures r != ""
  {
    match FirstUsable(models, request, provider, 0)
    case Some(k) => provider(models[k], request).content
    case None => Apology
  }

  /** The models the fallback asks, in order: up to the first usable one, or all of them. */
  function ModelsTried(models: seq<string>, request: seq<ProviderMessage>, provider: Provider): (tried: seq<string>)
    ensures |tried| <= |models| && tried == models[..|tried|]
  {
    match FirstUsable(models, request, provider, 0)
    case Some(k) => models[..k + 1]
    case None => models
  }

  /**
   * Three candidates where the first two fail and the third answers "42":
   * the answer is "42" after exactly three requests.
   */
  lemma ThirdCandidateAnswers(request: seq<ProviderMessage>)
    ensures var p: Provider := (m, r) => if m == "c" then Completion("42") else ProviderError("down");
            FallbackReply(["a", "b", "c"], request, p) == "42"
            && ModelsTried(["a", "b", "c"], request, p) == ["a", "b", "c"]
  {
    var p: Provider := (m, r) => if m == "c" then Completion("42") else ProviderError("down");
    assert !Usable(p("a", request)) && !Usable(p("b", request)) && Usable(p("c", request));
    assert FirstUsable(["a", "b", "c"], request, p, 0) == Some(2);
  }

  /**
   * The `for (const model of AI_MODELS)` loop: asks each model in order,
   * returns the first usable answer at once, and the apology when every
   * model fails or answers with empty content.
   */
  method TryModels(models: seq<string>, request: seq<ProviderMessage>, provider: Provider)
    returns (reply: string, tried: seq<string>)
    ensures reply == FallbackReply(models, request, provider)
    ensures tried == ModelsTried(models, request, provider)
  {
    tried := [];
    for i := 0 to |models|
      invariant tried == models[..i]
      invariant forall j :: 0 <= j < i ==> !Usable(provider(models[j], request))
    {
      tried := tried + [models[i]];
      var outcome := provider(models[i], request);
      if outcome.Completion? && outcome.content != "" {
        assert FirstUsable(models, request, provider, 0) == Some(i) by {
          FirstUsableFrom(models, request, provider, 0, i);
        }
        return outcome.content, tried;
      }
    }
    assert FirstUsable(models, request, provider, 0) == None by {
      FirstUsableNone(models, request, provider, 0);
    }
    return Apology, tried;
  }

  lemma {:induction false} FirstUsableFrom(models: seq<string>, request: seq<ProviderMessage>, provider: Provider, from: nat, i: nat)
    requires from <= i < |models|
    requires forall j :: from <= j < i ==> !Usable(provider(models[j], request))
    requires Usable(provider(models[i], request))
    ensures FirstUsable(models, request, provider, from) == Some(i)
    decreases i - from
  {
    if from < i {
      FirstUsableFrom(models, request, provider, from + 1, i);
    }
  }

  lemma {:induction false} FirstUsableNone(models: seq<string>, request: seq<ProviderMessage>, provider: Provider, from: nat)
    requires from <= |models|
    requires forall j :: from <= j < |models| ==> !Usable(provider(models[j], request))
    ensures FirstUsable(models, request, provider, from) == None
    decreases |models| - from
  {
    if from < |models| {
      FirstUsableNone(models, request, provider, from + 1);
    }
  }

  // ---------------------------------------------------------------- chatWithAI

  /** `!HF_TOKEN` is false: a token is configured and not empty. */
  predicate TokenConfigured(token: Option<string>) {
    token.Some? && token.value != ""
  }

  /** The reply `chatWithAI` resolves to. */
  function ChatReply(token: Option<string>, messages: seq<Message>, user: Option<UserContext>, provider: Provider): (r: string)
    ensures r != ""
    ensures !TokenConfigured(token) ==> r == TokenMissing
  {
    if !TokenConfigured(token) then TokenMissing
    else FallbackReply(AiModels, BuildContext(messages, user), provider)
  }

  /** The models `chatWithAI` asks, in order. */
  function ChatModelsTried(token: Option<string>, messages: seq<Message>, user: Option<UserContext>, provider: Provider): (tried: seq<string>)
    ensures !TokenConfigured(token) ==> tried == []
    ensures |tried| <= |AiModels|
  {
    if !TokenConfigured(token) then []
    else ModelsTried(AiModels, BuildContext(messages, user), provider)
  }

  /**
   * The first model (in list order) whose answer is usable decides the
   * reply and no later model is asked; when none is usable every model is
   * asked and the apology is returned.
   */
  lemma FallbackOutcome(models: seq<string>, request: seq<ProviderMessage>, provider: Provider)
    requires |models| > 0
    ensures var tried := ModelsTried(models, request, provider);
            var reply := FallbackReply(models, request, provider);
            && |tried| >= 1
            && (forall j :: 0 <= j < |tried| - 1 ==> !Usable(provider(tried[j], request)))
            && (Usable(provider(tried[|tried| - 1], request)) ==> reply == provider(tried[|tried| - 1], request).content)
            && (!Usable(provider(tried[|tried| - 1], request)) ==> tried == models && reply == Apology)
  {
    var tried := ModelsTried(models, request, provider);
    if FirstUsable(models, request, provider, 0).None? {
      assert tried[|tried| - 1] == models[|models| - 1];
    }
  }

  /** The system prompt built clause by clause: the persona, then the profile, then the image notice. */
  method ComposeSystemContent(user: Option<UserContext>, hasImages: bool) returns (systemContent: string)
    ensures systemContent == SystemPreamble(user, hasImages)
  {
    systemContent := BasePersona;
    if user.Some? {
      systemContent := systemContent + ProfileClause(user.value);
    }
    if hasImages {
      systemContent := systemContent + ImageClause;
    }
  }

  /**
   * The part of `chatWithAI` between the token guard and the loop: the
   * preamble, its injection and the mapping of every message.
   */
  method PrepareRequest(messages: seq<Message>, user: Option<UserContext>) returns (textMessages: seq<ProviderMessage>)
    ensures textMessages == BuildContext(messages, user)
  {
    var hasImages := HasImages(messages);
    var systemContent := ComposeSystemContent(user, hasImages);
    var messagesWithSystem := WithSystem(messages, systemContent);
    textMessages := PrepareMessages(messagesWithSystem);
    assert textMessages == ToProviderMessages(messagesWithSystem);
    ContextIsMapped(messages, user);
  }

  /** `chatWithAI`: the token guard, then context building, then the fallback loop. */
  method ChatWithAI(token: Option<string>, messages: seq<Message>, user: Option<UserContext>, provider: Provider)
    returns (reply: string, tried: seq<string>)
    ensures reply == ChatReply(token, messages, user, provider)
    ensures tried == ChatModelsTried(token, messages, user, provider)
  {
    if !TokenConfigured(token) {
      return TokenMissing, [];
    }
    var textMessages := PrepareRequest(messages, user);
    reply, tried := TryModels(AiModels, textMessages, provider);
  }
}
