/** The pure part of the chat panel (src/components/chat-interface.tsx): which model
    answers, and the canned reply and attachment chosen by substring matches on the
    model id. */
module Dispatch {
  import opened Text

  datatype Option<+T> = None | Some(value: T)

  /** A model as the chat panel sees it (`ModelInfo`); the optional avatar only feeds
      rendering and is not modelled. */
  datatype ModelInfo = ModelInfo(id: string, name: string, description: string)

  /** Index of the first model whose id is `selected` (`models.find`), if any. */
  function FindById(models: seq<ModelInfo>, selected: string): (r: Option<nat>)
    ensures r.Some? ==> r.value < |models| && models[r.value].id == selected
    ensures r.Some? ==> forall j :: 0 <= j < r.value ==> models[j].id != selected
    ensures r.None? ==> forall j :: 0 <= j < |models| ==> models[j].id != selected
  {
    if models == [] then None
    else if models[0].id == selected then Some(0)
    else match FindById(models[1..], selected)
      case None => None
      case Some(k) => Some(k + 1)
  }

  /** `models.find(model => model.id === selectedModel) || models[0]`: the first model
      with the selected id, or the first model of the list when none has it. */
  function ActiveModel(models: seq<ModelInfo>, selected: string): (m: ModelInfo)
    requires |models| > 0
    ensures m in models
    ensures (exists j :: 0 <= j < |models| && models[j].id == selected) ==> m.id == selected
    ensures (forall j :: 0 <= j < |models| ==> models[j].id != selected) ==> m == models[0]
  {
    match FindById(models, selected)
    case Some(k) => models[k]
    case None => models[0]
  }

  /** The resolved model precedes every other model carrying the same id. */
  lemma ActiveModelIsFirstMatch(models: seq<ModelInfo>, selected: string, i: nat)
    requires i < |models| && models[i].id == selected
    ensures ActiveModel(models, selected) == models[FindById(models, selected).value]
    ensures FindById(models, selected).value <= i
  {
  }

  datatype AttachmentKind = ImageAttachment | VideoAttachment | CodeAttachment

  /** An attachment of an assistant message: its kind, its url (for code, the code text
      itself) and an optional alt text. */
  datatype Attachment = Attachment(kind: AttachmentKind, url: string, alt: Option<string>)

  const PlaceholderUrl: string := "/placeholder.svg"
  const ImageAlt: string := "Сгенерированное изображение"
  const VideoAlt: string := "Сгенерированное видео"
  const SampleGameCode: string :=
    "console.log('Пример сгенерированного кода игры');\n\n// Тут мог бы быть рабочий код вашей игры\nconst game = {\n  init() {\n    console.log('Игра инициализирована');\n  },\n  start() {\n    console.log('Игра запущена!');\n  }\n};\n\ngame.init();\ngame.start();"

  /** `getAttachmentByModel`: `None` stands for `undefined`. */
  function AttachmentByModel(modelId: string): (r: Option<seq<Attachment>>)
    ensures r.Some? ==> |r.value| == 1
  {
    if Includes(modelId, "dall") || Includes(modelId, "midjourney") then
      Some([Attachment(ImageAttachment, PlaceholderUrl, Some(ImageAlt))])
    else if Includes(modelId, "sora") then
      Some([Attachment(VideoAttachment, PlaceholderUrl, Some(VideoAlt))])
    else if Includes(modelId, "gemini") then
      Some([Attachment(CodeAttachment, SampleGameCode, None)])
    else
      None
  }

  /** `getResponseByModelAndPrompt`. */
  function ResponseByModelAndPrompt(modelId: string, prompt: string): string {
    if Includes(modelId, "dall") || Includes(modelId, "midjourney") then
      "Вот изображение по запросу \"" + prompt + "\". Вы можете сохранить его, нажав на кнопку загрузки."
    else if Includes(modelId, "sora") then
      "Видео по запросу \"" + prompt + "\" готово. Вы можете просмотреть и сохранить его."
    else if Includes(modelId, "gemini") then
      "Я создал код игры по вашему запросу \"" + prompt + "\". Вы можете скопировать код и запустить его."
    else if Includes(modelId, "custom") then
      "Как ваша персонализированная нейросеть, я готов помочь с запросом \"" + prompt + "\". Что бы вы хотели создать сегодня?"
    else
      "Я обработал ваш запрос \"" + prompt + "\". Чем еще могу помочь?"
  }

  // ---------------------------------------------------------------------------
  // Reference definition: the precedence as an ordered rule table

  /** The kind of answer a model id selects. */
  datatype Category = Image | Video | Code | Custom | Generic

  /** A rule fires when the id contains any of its keywords. */
  datatype Rule = Rule(keywords: seq<string>, category: Category)

  /** Rules in the order they are tried; the first that fires wins, `Generic` otherwise. */
  const Rules: seq<Rule> := [
    Rule(["dall", "midjourney"], Image),
    Rule(["sora"], Video),
    Rule(["gemini"], Code),
    Rule(["custom"], Custom)
  ]

  predicate Fires(rule: Rule, modelId: string) {
    exists k :: 0 <= k < |rule.keywords| && Includes(modelId, rule.keywords[k])
  }

  function FirstMatch(rules: seq<Rule>, modelId: string): (c: Category)
    ensures c == Generic || exists i :: 0 <= i < |rules| && rules[i].category == c
  {
    if rules == [] then Generic
    else if Fires(rules[0], modelId) then rules[0].category
    else FirstMatch(rules[1..], modelId)
  }

  /** The category of a model id: the first rule of `Rules` that fires. */
  function CategoryOf(modelId: string): Category {
    FirstMatch(Rules, modelId)
  }

  /** The reply text around the prompt, per category. */
  datatype Template = Template(before: string, after: string)

  function TemplateOf(c: Category): Template {
    match c
    case Image => Template("Вот изображение по запросу \"", "\". Вы можете сохранить его, нажав на кнопку загрузки.")
    case Video => Template("Видео по запросу \"", "\" готово. Вы можете просмотреть и сохранить его.")
    case Code => Template("Я создал код игры по вашему запросу \"", "\". Вы можете скопировать код и запустить его.")
    case Custom => Template("Как ваша персонализированная нейросеть, я готов помочь с запросом \"", "\". Что бы вы хотели создать сегодня?")
    case Generic => Template("Я обработал ваш запрос \"", "\". Чем еще могу помочь?")
  }

  /** The reply of category `c` to `prompt`: the prompt sits verbatim right after the
      template's opening text. */
  function Reply(c: Category, prompt: string): (r: string)
    ensures |r| == |TemplateOf(c).before| + |prompt| + |TemplateOf(c).after|
    ensures r[|TemplateOf(c).before|..|TemplateOf(c).before| + |prompt|] == prompt
    ensures IsPrefix(TemplateOf(c).before, r)
    ensures r[|TemplateOf(c).before| + |prompt|..] == TemplateOf(c).after
  {
    TemplateOf(c).before + prompt + TemplateOf(c).after
  }

  /** The attachment kind each attachment-bearing category carries. */
  function KindOf(c: Category): Option<AttachmentKind> {
    match c
    case Image => Some(ImageAttachment)
    case Video => Some(VideoAttachment)
    case Code => Some(CodeAttachment)
    case _ => None
  }

  // ---------------------------------------------------------------------------
  // The component's two functions against the rule table

  /** Unfolds the rule table: which category each combination of keyword hits gives. */
  lemma CategoryOfCases(modelId: string)
    ensures CategoryOf(modelId) == Image <==> Includes(modelId, "dall") || Includes(modelId, "midjourney")
    ensures CategoryOf(modelId) == Video <==>
      !(Includes(modelId, "dall") || Includes(modelId, "midjourney")) && Includes(modelId, "sora")
    ensures CategoryOf(modelId) == Code <==>
      !(Includes(modelId, "dall") || Includes(modelId, "midjourney")) && !Includes(modelId, "sora")
      && Includes(modelId, "gemini")
    ensures CategoryOf(modelId) == Custom <==>
      !(Includes(modelId, "dall") || Includes(modelId, "midjourney")) && !Includes(modelId, "sora")
      && !Includes(modelId, "gemini") && Includes(modelId, "custom")
  {
    var r0, r1, r2, r3 := Rules[0], Rules[1], Rules[2], Rules[3];
    assert Fires(r0, modelId) <==> Includes(modelId, "dall") || Includes(modelId, "midjourney") by {
      assert r0.keywords[0] == "dall" && r0.keywords[1] == "midjourney";
    }
    assert Fires(r1, modelId) <==> Includes(modelId, "sora") by { assert r1.keywords[0] == "sora"; }
    assert Fires(r2, modelId) <==> Includes(modelId, "gemini") by { assert r2.keywords[0] == "gemini"; }
    assert Fires(r3, modelId) <==> Includes(modelId, "custom") by { assert r3.keywords[0] == "custom"; }
    assert Rules[1..] == [r1, r2, r3] && [r1, r2, r3][1..] == [r2, r3] && [r2, r3][1..] == [r3];
    assert [r3][1..] == [];
    calc {
      CategoryOf(modelId);
      if Fires(r0, modelId) then Image else FirstMatch([r1, r2, r3], modelId);
      if Fires(r0, modelId) then Image else if Fires(r1, modelId) then Video
      else FirstMatch([r2, r3], modelId);
      if Fires(r0, modelId) then Image else if Fires(r1, modelId) then Video
      else if Fires(r2, modelId) then Code else FirstMatch([r3], modelId);
      if Fires(r0, modelId) then Image else if Fires(r1, modelId) then Video
      else if Fires(r2, modelId) then Code else if Fires(r3, modelId) then Custom else Generic;
    }
  }

  /** The reply is the category's template filled with the prompt: the component's
      if-chain has the same precedence as the rule table. */
  lemma ResponseFollowsCategory(modelId: string, prompt: string)
    ensures ResponseByModelAndPrompt(modelId, prompt) == Reply(CategoryOf(modelId), prompt)
  {
    CategoryOfCases(modelId);
    match CategoryOf(modelId)
    case Image => assert Includes(modelId, "dall") || Includes(modelId, "midjourney");
    case Video => assert Includes(modelId, "sora");
    case Code => assert Includes(modelId, "gemini");
    case Custom => assert Includes(modelId, "custom");
    case Generic => assert !Includes(modelId, "custom");
  }

  /** The attachment is one element of the category's kind for image, video and code
      ids, and `undefined` for every other id. */
  lemma AttachmentFollowsCategory(modelId: string)
    ensures AttachmentByModel(modelId).Some? <==> KindOf(CategoryOf(modelId)).Some?
    ensures AttachmentByModel(modelId).Some? ==>
      AttachmentByModel(modelId).value[0].kind == KindOf(CategoryOf(modelId)).value
  {
    CategoryOfCases(modelId);
  }

  /** Every reply contains the prompt verbatim. */
  lemma ResponseEmbedsPrompt(modelId: string, prompt: string)
    ensures Includes(ResponseByModelAndPrompt(modelId, prompt), prompt)
  {
    ResponseFollowsCategory(modelId, prompt);
    var c := CategoryOf(modelId);
    OccursIncludes(Reply(c, prompt), prompt, |TemplateOf(c).before|);
  }

  /** Length of a category's template, opening and closing text together. */
  function TemplateLength(c: Category): (n: nat)
    ensures n == |TemplateOf(c).before| + |TemplateOf(c).after|
  {
    match c
    case Image => 81
    case Video => 66
    case Code => 82
    case Custom => 103
    case Generic => 47
  }

  /** Replies to the same prompt differ whenever their categories do: the five
      templates have five different lengths. */
  lemma ReplyDeterminesCategory(c1: Category, c2: Category, prompt: string)
    requires Reply(c1, prompt) == Reply(c2, prompt)
    ensures c1 == c2
  {
    assert TemplateLength(c1) == TemplateLength(c2);
  }

  /** An attachment comes with a reply exactly when that reply is neither the
      personalised reply nor the generic one. */
  lemma AttachmentIffNotCustomOrGeneric(modelId: string, prompt: string)
    ensures AttachmentByModel(modelId).Some? <==>
      (ResponseByModelAndPrompt(modelId, prompt) != Reply(Custom, prompt)
       && ResponseByModelAndPrompt(modelId, prompt) != Reply(Generic, prompt))
  {
    ResponseFollowsCategory(modelId, prompt);
    AttachmentFollowsCategory(modelId);
    var c := CategoryOf(modelId);
    if Reply(c, prompt) == Reply(Custom, prompt) {
      ReplyDeterminesCategory(c, Custom, prompt);
    }
    if Reply(c, prompt) == Reply(Generic, prompt) {
      ReplyDeterminesCategory(c, Generic, prompt);
    }
  }

  /** An id containing "dall" gets an image whatever else it contains: the first
      rule shadows all later ones. */
  lemma ImageRuleShadows(modelId: string)
    requires Includes(modelId, "dall") || Includes(modelId, "midjourney")
    ensures CategoryOf(modelId) == Image
    ensures AttachmentByModel(modelId) == Some([Attachment(ImageAttachment, PlaceholderUrl, Some(ImageAlt))])
  {
    CategoryOfCases(modelId);
  }
}
