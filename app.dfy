/** The page (src/pages/Index.tsx): it owns the selection, the custom presets and the
    dialog's visibility, builds the lists for the sidebar and the chat panel, and wires
    the sidebar's clicks, the dialog's callbacks and the chat panel's props. */
module App {
  import opened Text
  import opened Dispatch
  import opened Catalog
  import opened Dialog
  import opened Chat

  /** A selection that names a listed preset resolves to a preset with that id: the
      chat panel's fallback to the first entry is not taken. */
  lemma ListedSelectionResolves(customs: seq<Model>, selected: string)
    requires selected in Ids(AllModels(customs))
    ensures ActiveModel(AllModelsInfo(customs), selected).id == selected
  {
    AllModelsInfoMatchesAllModels(customs);
    var all := AllModels(customs);
    var i :| 0 <= i < |all| && Ids(all)[i] == selected;
    assert AllModelsInfo(customs)[i].id == selected;
  }

  /** Right after a preset is created, the chat panel resolves to a custom preset
      with the new id, which gets the personalised reply and no attachment. */
  lemma CreatedPresetAnswersPersonally(customs: seq<Model>, name: string, description: string,
                                       now: nat, prompt: string)
    ensures var infos := AllModelsInfo(customs + [NewCustomModel(name, description, now)]);
      var active := ActiveModel(infos, CustomId(now));
      active.id == CustomId(now)
      && AttachmentByModel(active.id) == None
      && ResponseByModelAndPrompt(active.id, prompt) == Reply(Custom, prompt)
  {
    var cs := customs + [NewCustomModel(name, description, now)];
    assert Ids(AllModels(cs))[|AllModels(cs)| - 1] == CustomId(now);
    ListedSelectionResolves(cs, CustomId(now));
    CustomIdEncodesTime(now);
    CustomIdDispatch(CustomId(now), prompt);
  }

  class IndexPage {
    var selectedModel: string
    var customModels: seq<Model>
    var showNewModelDialog: bool

    /** Every custom preset was created by `HandleCreateModel` (a "custom-<digits>" id
        and the custom category), and the selection names a listed preset. */
    ghost predicate Valid()
      reads this
    {
      (forall i :: 0 <= i < |customModels| ==>
         IsCustomId(customModels[i].id) && customModels[i].category == Custom)
      && selectedModel in Ids(AllModels(customModels))
    }

    /** The list handed to the chat panel (`allModelsInfo`). */
    function ModelsInfo(): (r: seq<ModelInfo>)
      reads this
      ensures |r| == |BuiltInInfos| + |customModels|
    {
      AllModelsInfo(customModels)
    }

    /** The initial state: "dall-e-3" selected, no custom preset, dialog hidden. */
    constructor ()
      ensures Valid()
      ensures selectedModel == "dall-e-3" && customModels == [] && !showNewModelDialog
    {
      selectedModel, customModels, showNewModelDialog := "dall-e-3", [], false;
      BuiltInIds();
    }

    /** `handleCreateModel`: appends the new custom preset after the existing ones and
        selects it. */
    method HandleCreateModel(name: string, description: string, now: nat)
      requires Valid()
      modifies this
      ensures Valid()
      ensures customModels == old(customModels) + [NewCustomModel(name, description, now)]
      ensures selectedModel == CustomId(now)
      ensures showNewModelDialog == old(showNewModelDialog)
    {
      var created := NewCustomModel(name, description, now);
      CustomIdEncodesTime(now);
      customModels := customModels + [created];
      selectedModel := created.id;
      assert Ids(AllModels(customModels))[|AllModels(customModels)| - 1] == selectedModel;
    }

    /** A click on the `i`-th sidebar entry selects that entry's id; afterwards the
        entries highlighted are exactly those with that id. */
    method SelectModel(i: nat)
      requires Valid() && i < |AllModels(customModels)|
      modifies this
      ensures customModels == old(customModels) && showNewModelDialog == old(showNewModelDialog)
      ensures Valid()
      ensures selectedModel == AllModels(customModels)[i].id
      ensures forall j :: 0 <= j < |AllModels(customModels)| ==>
        (IsHighlighted(selectedModel, AllModels(customModels)[j]) <==>
         AllModels(customModels)[j].id == AllModels(customModels)[i].id)
    {
      selectedModel := AllModels(customModels)[i].id;
      assert Ids(AllModels(customModels))[i] == selectedModel;
    }

    /** `setShowNewModelDialog`, from the sidebar's "create" button or the dialog. */
    method SetShowNewModelDialog(open: bool)
      requires Valid()
      modifies this
      ensures Valid()
      ensures showNewModelDialog == open
      ensures selectedModel == old(selectedModel) && customModels == old(customModels)
    {
      showNewModelDialog := open;
    }

    /** The dialog's form is submitted: its callbacks run on this page in the order
        the dialog invokes them. */
    method SubmitDialog(dialog: CreateModelDialog, now: nat)
      requires Valid()
      modifies this, dialog
      ensures Valid()
      ensures IsBlank(old(dialog.name)) ==>
        selectedModel == old(selectedModel) && customModels == old(customModels)
        && showNewModelDialog == old(showNewModelDialog)
        && dialog.name == old(dialog.name) && dialog.description == old(dialog.description)
      ensures !IsBlank(old(dialog.name)) ==>
        customModels == old(customModels) + [NewCustomModel(old(dialog.name), old(dialog.description), now)]
        && selectedModel == CustomId(now) && !showNewModelDialog
        && dialog.name == "" && dialog.description == ""
    {
      var calls := dialog.HandleSubmit();
      if calls != [] {
        HandleCreateModel(calls[0].name, calls[0].description, now);
        SetShowNewModelDialog(calls[1].open);
      }
    }

    /** The chat panel's send, with this page's selection and list as its props: the
        reply it schedules is bound to the selected preset's id. */
    method SendFromChat(chat: ChatSession, now: nat)
      requires Valid() && chat.Valid()
      modifies chat
      ensures chat.Valid()
      ensures !IsBlank(old(chat.input)) ==>
        chat.messages == old(chat.messages) + [UserMessage(old(chat.input), now)]
        && chat.pendingReplies == old(chat.pendingReplies) + [PendingReply(selectedModel, old(chat.input))]
        && chat.input == ""
      ensures IsBlank(old(chat.input)) ==>
        chat.messages == old(chat.messages) && chat.pendingReplies == old(chat.pendingReplies)
        && chat.input == old(chat.input)
      ensures chat.isSaved == old(chat.isSaved) && chat.pendingResets == old(chat.pendingResets)
    {
      ListedSelectionResolves(customModels, selectedModel);
      chat.HandleSend(ModelsInfo(), selectedModel, now);
    }
  }
}
