# neuro-chat-dark-mode in Dafny

A model of the logic behind a small mock "AI chat" web page. The page has three parts:

- **Sidebar.** It lists four built-in presets (DALL-E 3, Midjourney, Sora, Gemini) followed by the presets the user created. It highlights the selected preset, and a click selects one.
- **Create dialog.** It accepts a name and a description. A submit with a blank name does nothing. Otherwise it hands both values to the page, clears the form and closes.
- **Chat panel.** It resolves the selected id to a preset, falling back to the first one. It appends the user's non-blank input as a message. One second later it appends a canned assistant reply, with an optional attachment. The reply is chosen by substring matches on the model id, and the first match wins:
  - "dall" or "midjourney" gives an image reply;
  - "sora" gives a video reply;
  - "gemini" gives a code reply;
  - "custom" gives the personalised reply;
  - anything else gives the generic reply.

  A "save" button sets a per-message flag, and the flag is reset two seconds later.

Modules:

- `Text`: JavaScript's `includes`, `trim` (ECMAScript whitespace) and the decimal `toString` of a non-negative integer.
- `Dispatch`: the chat panel's pure part, checked against an independent reference definition. That definition is an ordered rule table `Rules` with reply templates.
- `Catalog`: the built-in table, both preset lists, and custom-preset creation.
- `Chat`: class `ChatSession`, holding the panel's state. Its two timers are explicit queues, and their events fire in any order.
- `Dialog`: class `CreateModelDialog`.
- `App`: class `IndexPage`, the page that owns the selection and the custom presets and wires the three parts together.

## Model

| member | source | states |
|---|---|---|
| Text.Includes | src/components/chat-interface.tsx:73 | `s.includes(w)` holds exactly when `w` occurs in `s` at some index (the empty word everywhere) |
| Text.TrimStart | src/components/chat-interface.tsx:45 | the result is a suffix of the input and does not start with whitespace |
| Text.TrimStartDropsWhitespace | src/components/chat-interface.tsx:45 | every character dropped from the front is whitespace |
| Text.TrimEnd | src/components/chat-interface.tsx:45 | the result is a prefix of the input and does not end with whitespace |
| Text.TrimEndDropsWhitespace | src/components/chat-interface.tsx:45 | every character dropped from the end is whitespace |
| Text.Trim | src/components/chat-interface.tsx:45 | `trim` removes exactly the leading and trailing whitespace: the result is the piece of the input between a whitespace-only prefix and a whitespace-only suffix, and it neither starts nor ends with whitespace |
| Text.TrimEmptyIffAllWhitespace | src/components/chat-interface.tsx:45 | `trim` yields "" exactly when every character is whitespace |
| Text.HasVisibleIffSomeChar | src/components/create-model-dialog.tsx:25 | a string has a visible character exactly when some character is not whitespace |
| Text.BlankIffTrimEmpty | src/components/create-model-dialog.tsx:25 | `IsBlank`, the gate used by both send and submit, holds exactly when `trim` leaves "" |
| Text.NatToString | src/pages/Index.tsx:22 | `toString` of a non-negative integer is non-empty, all decimal digits, with no leading zero |
| Text.NatToStringRoundTrip | src/pages/Index.tsx:22 | reading the digits back gives the number |
| Text.NatToStringInjective | src/components/chat-interface.tsx:49 | different clock readings give different rendered ids |
| Dispatch.FindById | src/components/chat-interface.tsx:38 | the index of the element `models.find` returns: the first model with the id, or nothing when no model has it |
| Dispatch.ActiveModel | src/components/chat-interface.tsx:38 | the resolved model is from the list; it carries the selected id when some model does, and is `models[0]` otherwise |
| Dispatch.ActiveModelIsFirstMatch | src/components/chat-interface.tsx:38 | the resolved model is the first one carrying the selected id |
| Dispatch.AttachmentByModel | src/components/chat-interface.tsx:72-86 | an attachment, when present, is a one-element list |
| Dispatch.Reply | src/components/chat-interface.tsx:88-102 | a reply is the category's opening text, then the prompt verbatim, then the closing text |
| Dispatch.TemplateLength | src/components/chat-interface.tsx:88-102 | the five templates have pairwise different lengths |
| Dispatch.CategoryOfCases | src/components/chat-interface.tsx:89-101 | the rule table picks image, video, code, custom or generic exactly under the keyword conditions of the if-chain, first match first |
| Dispatch.ResponseFollowsCategory | src/components/chat-interface.tsx:88-102 | `getResponseByModelAndPrompt` equals the rule table's reply for every id and prompt |
| Dispatch.AttachmentFollowsCategory | src/components/chat-interface.tsx:72-86 | an attachment is present exactly for the image, video and code categories, and its kind is that category's kind |
| Dispatch.ResponseEmbedsPrompt | src/components/chat-interface.tsx:88-102 | every reply contains the prompt verbatim |
| Dispatch.ReplyDeterminesCategory | src/components/chat-interface.tsx:88-102 | two replies to the same prompt are equal only when their categories are |
| Dispatch.AttachmentIffNotCustomOrGeneric | src/components/chat-interface.tsx:72-102 | an attachment is present exactly when the reply is neither the personalised nor the generic one |
| Dispatch.ImageRuleShadows | src/components/chat-interface.tsx:73-74 | an id containing "dall" or "midjourney" gets the image attachment, whatever else it contains |
| Catalog.Ids | src/components/sidebar.tsx:77-79 | the ids of a preset list, position by position |
| Catalog.BuiltInIds | src/components/sidebar.tsx:13-42 | the built-in ids are dall-e-3, midjourney, sora, gemini in that order, pairwise distinct |
| Catalog.BuiltInCategoriesAgree | src/components/sidebar.tsx:19-40 | each built-in's declared category is the one the chat panel derives from its id |
| Catalog.AllModels | src/components/sidebar.tsx:57 | the sidebar list is the built-ins followed by the custom presets; its length is the sum |
| Catalog.AllModelsInfo | src/pages/Index.tsx:33-43 | the page list is the four built-in entries followed by each custom preset projected to id, name and description, in order |
| Catalog.BuiltInInfosMatch | src/pages/Index.tsx:34-37 | the page's built-in entries have the sidebar table's ids and names |
| Catalog.AllModelsInfoMatchesAllModels | src/pages/Index.tsx:33-43 | the page list and the sidebar list name the same presets, position by position |
| Catalog.InitialSelectionResolves | src/pages/Index.tsx:16 | the initial selection "dall-e-3" resolves to the first built-in entry, whatever customs exist |
| Catalog.CustomId | src/pages/Index.tsx:22 | a created id is "custom-" followed by the decimal rendering of the clock reading |
| Catalog.CustomIdEncodesTime | src/pages/Index.tsx:22 | a created id is "custom-" followed by decimal digits only, and those digits read back as the timestamp |
| Catalog.NewCustomModel | src/pages/Index.tsx:21-27 | the created preset keeps the name, gets the timestamped id and the custom category; the description is kept unless it is exactly "", which becomes "Пользовательская нейросеть" |
| Catalog.CustomIdKeywords | src/pages/Index.tsx:22 | a created id contains "custom" and none of "dall", "midjourney", "sora", "gemini" |
| Catalog.CustomIdDispatch | src/components/chat-interface.tsx:73-99 | a created id gets the personalised reply and no attachment |
| Catalog.CustomIdNotBuiltIn | src/pages/Index.tsx:22 | a created id never equals a built-in id |
| Catalog.HighlightUniqueForBuiltIn | src/components/sidebar.tsx:83 | with a built-in selected, exactly that entry is highlighted |
| Chat.UserMessage | src/components/chat-interface.tsx:48-53 | the user message carries the input verbatim, the user role, no attachment, and an id rendered from the clock |
| Chat.AssistantMessage | src/components/chat-interface.tsx:60-66 | the reply message has the assistant role and is built only from the captured model id and prompt |
| Chat.AssistantMessageContent | src/components/chat-interface.tsx:60-66 | a delivered reply is its category's template around the captured prompt, contains that prompt, and has an attachment exactly when it is neither the personalised nor the generic reply |
| Chat.CountRoleAppend | src/components/chat-interface.tsx:55 | appending a message adds one to its own role's count and nothing to the other role's |
| Chat.RemoveAt | src/components/chat-interface.tsx:59 | removing a fired event keeps the others in order |
| Chat.SubmitKeepsAnswered | src/components/chat-interface.tsx:44-59 | a send keeps "user messages = assistant messages + pending replies", with every prompt non-blank |
| Chat.FireKeepsAnswered | src/components/chat-interface.tsx:59-69 | a delivered reply keeps the same agreement |
| Chat.ChatSession.constructor | src/components/chat-interface.tsx:33-35 | empty input, empty log, no flags, no pending events |
| Chat.ChatSession.SetInput | src/components/chat-interface.tsx:234 | the input becomes the typed text; nothing else changes |
| Chat.ChatSession.HandleSend | src/components/chat-interface.tsx:44-59 | blank input changes nothing; otherwise exactly one user message with the input is appended, the input is cleared, and a reply bound to the active model's id and that input is queued |
| Chat.ChatSession.FireReply | src/components/chat-interface.tsx:59-69 | exactly one assistant message, built from the captured model id and prompt, is appended, and that reply leaves the queue |
| Chat.ChatSession.HandleSave | src/components/chat-interface.tsx:104-106 | the message's flag becomes true, its reset is queued, and no other flag changes |
| Chat.ChatSession.ClearSaved | src/components/chat-interface.tsx:106-108 | the queued message's flag becomes false and no other flag changes |
| Dialog.CreateModelDialog.constructor | src/components/create-model-dialog.tsx:20-21 | both fields start empty |
| Dialog.CreateModelDialog.SetName | src/components/create-model-dialog.tsx:48 | the name becomes the typed text; the description is kept |
| Dialog.CreateModelDialog.SetDescription | src/components/create-model-dialog.tsx:61 | the description becomes the typed text; the name is kept |
| Dialog.CreateModelDialog.HandleSubmit | src/components/create-model-dialog.tsx:23-31 | a blank name invokes nothing and keeps both fields; otherwise the create callback runs once with the untrimmed values, both fields become "", and closing is requested |
| App.ListedSelectionResolves | src/components/chat-interface.tsx:38 | a selection naming a listed preset resolves to that id, so the fallback is not taken |
| App.CreatedPresetAnswersPersonally | src/pages/Index.tsx:20-31 | right after creation, the panel resolves to the new preset, which gets the personalised reply and no attachment |
| App.IndexPage.ModelsInfo | src/pages/Index.tsx:33-43 | the list passed to the chat panel has four entries plus one per custom preset |
| App.IndexPage.constructor | src/pages/Index.tsx:16-18 | "dall-e-3" is selected, there are no custom presets, and the dialog is hidden |
| App.IndexPage.HandleCreateModel | src/pages/Index.tsx:20-31 | exactly one preset is appended after the earlier ones and it becomes the selection |
| App.IndexPage.SelectModel | src/components/sidebar.tsx:83-85 | a click selects the entry's id, and afterwards exactly the entries with that id are highlighted |
| App.IndexPage.SetShowNewModelDialog | src/components/sidebar.tsx:65 | the dialog's visibility becomes the requested value; nothing else changes |
| App.IndexPage.SubmitDialog | src/pages/Index.tsx:61-65 | a blank-name submit changes nothing; otherwise the preset is created and selected, the form is cleared and the dialog is hidden |
| App.IndexPage.SendFromChat | src/pages/Index.tsx:55-58 | a send from the panel queues a reply bound to the page's selected id; the save flags and their pending resets are untouched |

## Left out

- Rendering: JSX, styling, icons, avatars, the empty-state header and the `scrollIntoView` effect. Only the highlight predicate is kept.
- Timing: real delays, `Date.now()` and `new Date()`. The clock is a `now` parameter, and the two timers are queues whose events fire in any order. Message ids are not claimed to be unique; the code does not ensure that they are.
- `ModelInfo`'s optional `avatar`, and the optionality of its `description`. They only feed rendering.
- The dialog's own `onOpenChange` from the overlay or the escape key. It belongs to the UI library. Opening from the sidebar is `SetShowNewModelDialog`.
- Random reply pools, game-template matching, and the play, clipboard and download helpers. None of these exist in the code: it has one fixed reply per category and one fixed code string, and the model follows the code.
- Catalog.NewCustomModel: a whitespace-only description is kept as written, not replaced by the default. The code tests with `||`, so only "" is replaced.
- Dispatch.ActiveModel: requires a non-empty list. With an empty list the code would read a field of `undefined`; the page always passes at least four entries.
- Chat.AssistantMessage: its own contract states the content as `getResponseByModelAndPrompt` of the captured values. What that content means (template, prompt, attachment) is stated by `Chat.AssistantMessageContent`.
- The built-in descriptions in src/pages/Index.tsx differ from those in src/components/sidebar.tsx. Both tables are modelled as written.
- Strings are sequences of Unicode scalar values, while JavaScript strings are UTF-16 code units, so a prompt holding a lone surrogate cannot be represented. Nothing else changes: every keyword is ASCII and every whitespace character lies in the Basic Multilingual Plane.
- Clock width: `Date.now()` is a float64 in JavaScript. Its `toString` switches to exponent notation from 1e21, and `Date.now() + 1` loses precision above 2^53. The model's `now` is an unbounded `nat`. Real clock readings stay below 8.64e15, so neither limit is reached.
- vite.config.ts is not part of this model.
