/** The preset catalog: the sidebar's fixed built-in table (src/components/sidebar.tsx),
    the sidebar list and the chat panel's list built from it and the custom presets
    (src/pages/Index.tsx), and the shape of a custom preset created at run time. */
module Catalog {
  import opened Text
  import opened Dispatch

  /** The categories a preset can declare: every `Category` but `Generic`, which only
      the dispatcher's fallback uses. */
  type PresetCategory = c: Category | c != Generic witness Image

  /** A preset as the page and the sidebar hold it (`Model`); its icon is not
      modelled. */
  datatype Model = Model(id: string, name: string, description: string, category: PresetCategory)

  /** The sidebar's built-in table, in display order. */
  const BuiltIns: seq<Model> := [
    Model("dall-e-3", "DALL-E 3", "Генерация изображений", Image),
    Model("midjourney", "Midjourney", "Художественные изображения", Image),
    Model("sora", "Sora", "Генерация видео", Video),
    Model("gemini", "Gemini", "Создание игр и кода", Code)
  ]

  /** The ids of a list of presets, in order. */
  function Ids(ms: seq<Model>): (r: seq<string>)
    ensures |r| == |ms| && forall i :: 0 <= i < |ms| ==> r[i] == ms[i].id
  {
    if ms == [] then [] else [ms[0].id] + Ids(ms[1..])
  }

  /** The built-in ids are dall-e-3, midjourney, sora, gemini, in that order, and no
      two of them are equal. */
  lemma BuiltInIds()
    ensures Ids(BuiltIns) == ["dall-e-3", "midjourney", "sora", "gemini"]
    ensures forall i, j :: 0 <= i < j < |BuiltIns| ==> BuiltIns[i].id != BuiltIns[j].id
  {
  }

  /** Each built-in's declared category is the one the chat panel derives from its
      id. */
  lemma BuiltInCategoriesAgree()
    ensures forall i :: 0 <= i < |BuiltIns| ==> CategoryOf(BuiltIns[i].id) == BuiltIns[i].category
  {
    forall i | 0 <= i < |BuiltIns| ensures CategoryOf(BuiltIns[i].id) == BuiltIns[i].category {
      BuiltInCategoryAgrees(i);
    }
  }

  lemma BuiltInCategoryAgrees(i: nat)
    requires i < |BuiltIns|
    ensures CategoryOf(BuiltIns[i].id) == BuiltIns[i].category
  {
    var id := BuiltIns[i].id;
    if i == 0 {
      OccursIncludes(id, "dall", 0);
      ImageRuleShadows(id);
    } else if i == 1 {
      OccursIncludes(id, "midjourney", 0);
      ImageRuleShadows(id);
    } else if i == 2 {
      SoraIsVideo();
    } else {
      GeminiIsCode();
    }
  }

  lemma SoraIsVideo() ensures CategoryOf("sora") == Video {
    CategoryOfCases("sora");
    NotIncludesByFirstChar("sora", "dall");
    NotIncludesByFirstChar("sora", "midjourney");
    OccursIncludes("sora", "sora", 0);
  }

  lemma GeminiIsCode() ensures CategoryOf("gemini") == Code {
    CategoryOfCases("gemini");
    NotIncludesByFirstChar("gemini", "dall");
    NotIncludesByFirstChar("gemini", "midjourney");
    NotIncludesByFirstChar("gemini", "sora");
    OccursIncludes("gemini", "gemini", 0);
  }

  /** `allModels`: the built-ins followed by the custom presets. */
  function AllModels(customs: seq<Model>): (r: seq<Model>)
    ensures |r| == |BuiltIns| + |customs|
    ensures forall i :: 0 <= i < |r| ==>
      r[i] == if i < |BuiltIns| then BuiltIns[i] else customs[i - |BuiltIns|]
  {
    BuiltIns + customs
  }

  /** A sidebar entry is highlighted exactly when its id is the selected one. */
  predicate IsHighlighted(selected: string, m: Model) {
    selected == m.id
  }

  /** The chat panel's projection of a preset. */
  function Info(m: Model): ModelInfo {
    ModelInfo(m.id, m.name, m.description)
  }

  /** The page's own copy of the built-in entries, with longer descriptions than the
      sidebar's table. */
  const BuiltInInfos: seq<ModelInfo> := [
    ModelInfo("dall-e-3", "DALL-E 3", "Генерация изображений высокого качества"),
    ModelInfo("midjourney", "Midjourney", "Художественные изображения в разных стилях"),
    ModelInfo("sora", "Sora", "Генерация реалистичных видеороликов"),
    ModelInfo("gemini", "Gemini", "Создание игр и написание кода")
  ]

  /** `allModelsInfo`: the four built-ins, then every custom preset projected to id,
      name and description, in order. */
  function AllModelsInfo(customs: seq<Model>): (r: seq<ModelInfo>)
    ensures |r| == |BuiltInInfos| + |customs|
    ensures forall i :: 0 <= i < |BuiltInInfos| ==> r[i] == BuiltInInfos[i]
    ensures forall i :: 0 <= i < |customs| ==>
      r[|BuiltInInfos| + i] == ModelInfo(customs[i].id, customs[i].name, customs[i].description)
  {
    BuiltInInfos + seq(|customs|, i requires 0 <= i < |customs| => Info(customs[i]))
  }

  /** The page's built-in entries and the sidebar's table agree on ids and names. */
  lemma BuiltInInfosMatch()
    ensures |BuiltInInfos| == |BuiltIns|
    ensures forall i :: 0 <= i < |BuiltIns| ==>
      BuiltInInfos[i].id == BuiltIns[i].id && BuiltInInfos[i].name == BuiltIns[i].name
  {
  }

  /** The page's list and the sidebar's list name the same presets in the same order:
      same ids, same names. */
  lemma AllModelsInfoMatchesAllModels(customs: seq<Model>)
    ensures |AllModelsInfo(customs)| == |AllModels(customs)|
    ensures forall i :: 0 <= i < |AllModels(customs)| ==>
      AllModelsInfo(customs)[i].id == AllModels(customs)[i].id
      && AllModelsInfo(customs)[i].name == AllModels(customs)[i].name
  {
    var infos, models := AllModelsInfo(customs), AllModels(customs);
    BuiltInInfosMatch();
    forall i | 0 <= i < |models|
      ensures infos[i].id == models[i].id && infos[i].name == models[i].name
    {
      if i < |BuiltInInfos| {
        assert infos[i] == BuiltInInfos[i] && models[i] == BuiltIns[i];
      } else {
        assert infos[|BuiltInInfos| + (i - |BuiltInInfos|)] == infos[i];
      }
    }
  }

  /** With the initial selection "dall-e-3", the chat panel resolves to the first
      built-in, whatever custom presets exist. */
  lemma InitialSelectionResolves(customs: seq<Model>)
    ensures ActiveModel(AllModelsInfo(customs), "dall-e-3") == AllModelsInfo(customs)[0]
    ensures AllModelsInfo(customs)[0] == BuiltInInfos[0]
  {
  }

  // ---------------------------------------------------------------------------
  // Custom presets

  const DefaultDescription: string := "Пользовательская нейросеть"

  /** `custom-${Date.now()}`: "custom-" followed by the clock's decimal rendering. */
  function CustomId(now: nat): (id: string)
    ensures |id| > 7 && id[..7] == "custom-" && id[7..] == NatToString(now)
  {
    "custom-" + NatToString(now)
  }

  /** "custom-" followed by one or more decimal digits. */
  predicate IsCustomId(id: string) {
    |id| > 7 && id[..7] == "custom-" && forall i :: 7 <= i < |id| ==> IsDigit(id[i])
  }

  /** A created id is "custom-" followed by the decimal digits of the timestamp. */
  lemma CustomIdEncodesTime(now: nat)
    ensures IsCustomId(CustomId(now))
    ensures DecimalValue(CustomId(now)[7..]) == now
  {
    var id := CustomId(now);
    assert id[7..] == NatToString(now);
    NatToStringRoundTrip(now);
  }

  /** The preset `handleCreateModel` builds: the name as given, the description as
      given unless it is exactly "" (a whitespace-only one is kept), the custom
      category. */
  function NewCustomModel(name: string, description: string, now: nat): (m: Model)
    ensures m.id == CustomId(now) && m.name == name && m.category == Custom
    ensures description == "" ==> m.description == DefaultDescription
    ensures description != "" ==> m.description == description
  {
    Model(CustomId(now), name, if description == "" then DefaultDescription else description, Custom)
  }

  /** A word that cannot straddle or sit inside the "custom-" head: no two adjacent
      head characters start it, it does not start with '-', and it does not start with
      a digit. */
  lemma NoOccurrenceInCustomId(id: string, w: string)
    requires IsCustomId(id)
    requires |w| >= 2 && !IsDigit(w[0]) && w[0] != '-'
    requires forall i :: 0 <= i < 6 ==> !("custom-"[i] == w[0] && "custom-"[i + 1] == w[1])
    ensures !Includes(id, w)
  {
    forall i | 0 <= i < |id| && id[i] == w[0] ensures !OccursAt(id, w, i) {
      if i < 7 {
        assert id[i] == id[..7][i] == "custom-"[i];
        if i < 6 && i + |w| <= |id| {
          assert id[i + 1] == id[..7][i + 1] == "custom-"[i + 1];
          assert id[i..i + |w|][1] == id[i + 1];
        }
      }
    }
    NotIncludesByFirstChar(id, w);
  }

  /** A custom id contains "custom" and none of "dall", "midjourney", "sora",
      "gemini". */
  lemma CustomIdKeywords(id: string)
    requires IsCustomId(id)
    ensures Includes(id, "custom")
    ensures !Includes(id, "dall") && !Includes(id, "midjourney")
    ensures !Includes(id, "sora") && !Includes(id, "gemini")
  {
    assert id[0..6] == id[..7][..6] == "custom";
    OccursIncludes(id, "custom", 0);
    NoOccurrenceInCustomId(id, "dall");
    NoOccurrenceInCustomId(id, "midjourney");
    NoOccurrenceInCustomId(id, "sora");
    NoOccurrenceInCustomId(id, "gemini");
  }

  /** Every custom id gets the personalised reply and no attachment. */
  lemma CustomIdDispatch(id: string, prompt: string)
    requires IsCustomId(id)
    ensures CategoryOf(id) == Custom
    ensures AttachmentByModel(id) == None
    ensures ResponseByModelAndPrompt(id, prompt) == Reply(Custom, prompt)
  {
    CustomIdKeywords(id);
    CategoryOfCases(id);
    AttachmentFollowsCategory(id);
    ResponseFollowsCategory(id, prompt);
  }

  /** No custom id equals a built-in id. */
  lemma CustomIdNotBuiltIn(id: string)
    requires IsCustomId(id)
    ensures forall i :: 0 <= i < |BuiltIns| ==> BuiltIns[i].id != id
  {
    assert id[0] == id[..7][0] == 'c';
    assert forall i :: 0 <= i < |BuiltIns| ==> BuiltIns[i].id[0] != 'c';
  }

  /** When a built-in is selected and every custom preset carries a created id,
      exactly one sidebar entry is highlighted: that built-in. */
  lemma HighlightUniqueForBuiltIn(customs: seq<Model>, k: nat)
    requires k < |BuiltIns|
    requires forall c :: c in customs ==> IsCustomId(c.id)
    ensures forall i :: 0 <= i < |AllModels(customs)| ==>
      (IsHighlighted(BuiltIns[k].id, AllModels(customs)[i]) <==> i == k)
  {
    var all := AllModels(customs);
    BuiltInIds();
    forall i | |BuiltIns| <= i < |all| ensures all[i].id != BuiltIns[k].id {
      assert all[i] in customs;
      CustomIdNotBuiltIn(all[i].id);
    }
  }
}
