# ChatterCraft agents, embed widget and dashboard forms in Dafny

ChatterCraft is a service for building AI chat agents. A signed-in owner creates an agent in
the dashboard, with a name, a URL slug, a system prompt and a model provider. The owner tunes
the look of the chat widget and gets a one-line `<script>` tag to paste into a web site. The
tag loads `embed.js`, which reads the agent's slug and puts a launcher button and a chat frame
on the host page. The landing page adds a scripted demo chat, a testimonial carousel and an
FAQ accordion.

This project models, in one Dafny module per source file:

- `Schema`: the three tables (`agents`, `shopify_configs`, `ui_configs`), with their column
  defaults, `varchar` caps, unique slug and cascading foreign keys.
- `AgentActions`: the server actions over the agent table.
  - The agent validator and its field errors.
  - `createAgent`, `getUserAgents`, `getAgentById`, `getAgentBySlug`, `updateAgent` and
    `deleteAgent`, as methods of a store class that holds the tables.
- `AgentsPopup`: the create-agent dialog.
  - Its copy of the validator and its default values.
  - `generateRandomString`, as a loop over explicit random draws.
  - The slug derived from the name when the name changes.
- `UiCustomization`: the widget-appearance form.
  - Its validator and its defaults, compared with the column defaults.
  - The preview's field-wise merge of partial edits.
  - The submitting flag and the notice shown after a save.
- `EmbedScript` (`public/embed.js`):
  - the top-window guard, the search for the script tag and the missing-slug guard;
  - the base address and the frame address;
  - the open state driven by the launcher, the close button and messages from the frame;
  - initialisation now or on `DOMContentLoaded`.
- `AgentTabs`: the agent page's server address, shareable link and embed tag.
  - How a browser reads the tag's attributes back.
  - The proof that the widget's frame opens the shareable link.
- `EmbedCodeCard`: the embed-code card's tag, its default address and the "copied" flag.
- `ChatWidgetPreview`: the widget preview.
  - The launcher's corner and icon, and the open state.
  - The preview conversation with its simulated reply.
- `ChatDemo`, `Testimonials`, `Faq`: the landing page's demo chat, carousel index and accordion.
- `Text` and `Wrappers`: shared helpers.
  - ECMAScript white space, `trim`, `trimStart` and `trimEnd`.
  - An `Option` type.

Modelling choices:

- The signed-in user is an `Option<UserId>` argument. A `UserId` is never empty, and `None` stands for both a missing and an empty id, which `!userId` rejects alike.
- The database is in memory, with rows kept in insertion order.
- Timestamps come from a logical clock, and generated uuids from a counter.
- Random draws are a sequence argument.
- Each timer is an explicit event method that the caller invokes when it fires.

## Model

| member | source | states |
|---|---|---|
| AgentActions.FieldErrors | lib/actions/agent-actions.ts:11-27 | A field is listed exactly when one of its own rules fails: name shorter than 2; slug shorter than 2 or not `^[a-z0-9-]+$`; prompt shorter than 10; provider not gemini, anthropic or cohere. A listed field has at least one issue. |
| AgentActions.FieldMessages | lib/actions/agent-actions.ts:11-27 | The flattened `fieldErrors` list exactly the fields that have errors. Name, prompt and provider carry their rule's message. Slug carries the length message when it is too short, then the pattern message when it has other characters. |
| AgentActions.RespondTellsBranchesApart | lib/actions/agent-actions.ts:32-237 | For each action, two results give the same returned object exactly when they are the same result. So the `error` strings, and the `issues` of a refused form, tell every branch apart. |
| AgentActions.FieldErrorsEmptyIffAccepted | lib/actions/agent-actions.ts:11-27 | Validation succeeds exactly when all four rules hold, which is exactly when there are no field errors. |
| AgentActions.AcceptedProviderFitsColumn | lib/db/schema.ts:18 | Any accepted provider fits the 50-character `model_provider` column. |
| AgentActions.FindFirst | lib/actions/agent-actions.ts:55-58 | `findFirst` returns nothing exactly when no row matches the clause. Otherwise it returns a matching row of the table. |
| AgentActions.MatchesAtMostOne | lib/db/schema.ts:14-17 | With the primary key and the unique slug, each `where` clause used by the actions (id and owner, slug, active slug) matches at most one row. |
| AgentActions.FindFirstIsTheMatch | lib/actions/agent-actions.ts:111-120 | When a matching row exists, `findFirst` returns that row. |
| AgentActions.OwnedNewestFirst | lib/actions/agent-actions.ts:88-93 | The listing holds exactly the owner's rows. |
| AgentActions.OwnedNewestFirstOrdered | lib/actions/agent-actions.ts:88-93 | The listing is strictly ordered by `createdAt`, newest first. |
| AgentActions.InactiveAgentVisibleOnlyToOwner | lib/actions/agent-actions.ts:111-133 | An inactive agent is not found by the public slug look-up. Its owner still finds it by id. |
| Schema.VarcharStored | lib/db/schema.ts:15-17 | A stored `varchar` value is a prefix of the written one, cut at the cap. When the column takes the value, only spaces are lost. |
| Schema.AgentAsStored | lib/db/schema.ts:13-23 | The stored row is within every cap. A row already within the caps is stored unchanged. Only the four `varchar` columns may be cut. |
| AgentActions.UpdatedRow | lib/actions/agent-actions.ts:188-197 | An update sets name, slug, systemPrompt, modelProvider and updatedAt. It keeps id, userId, isActive and createdAt. |
| AgentActions.AgentStore.CreateAgent | lib/actions/agent-actions.ts:32-79 | Signed out gives Unauthorized. Invalid input gives "Invalid form data" with the field messages. A slug held by any row gives "Slug already taken". The failure branch is returned exactly when the checks pass and a column refuses the row: a value past its cap with a character other than a space there. Success holds exactly when none of these apply. On success the table gains exactly one row, as its columns store it: the caller as owner, the submitted fields with any space excess cut at the cap, active, both timestamps equal to now. On any error nothing changes. The schema invariant is kept. |
| AgentActions.AgentStore.GetUserAgents | lib/actions/agent-actions.ts:82-100 | Signed out gives `[]`. Otherwise the result is exactly the caller's agents, newest first. |
| AgentActions.AgentStore.GetAgentById | lib/actions/agent-actions.ts:103-125 | A record comes back exactly when the caller owns an agent with that id. It is that agent. A missing agent and a foreign agent both give null. |
| AgentActions.AgentStore.GetAgentBySlug | lib/actions/agent-actions.ts:128-141 | No sign-in is needed. A record comes back exactly when an active agent has that slug, and it is that agent. |
| AgentActions.AgentStore.UpdateAgent | lib/actions/agent-actions.ts:144-205 | Signed out, invalid, missing or foreign id: the matching error, and nothing changes. A changed slug held by any row gives "Slug already taken". An unchanged slug never does. The failure branch is returned exactly when the checks pass and a column refuses the updated row. Success holds exactly when none of these apply. On success only the caller's row with that id is rewritten, as described for UpdatedRow, with any space excess cut at the cap. Keys, order and the foreign keys are kept. |
| AgentActions.AgentStore.DeleteAgent | lib/actions/agent-actions.ts:208-237 | Signed out gives Unauthorized. A missing or foreign id gives the not-found error and nothing changes. Success holds exactly when the caller owns the id. It then deletes that agent and its config rows by the cascade, and keeps the invariant. |
| AgentActions.UpdateKeepsKeysAndOrder | lib/actions/agent-actions.ts:177-197 | After an update whose slug is unchanged or free, ids and slugs stay unique and creation order is kept. |
| AgentActions.UpdateKeepsRowFacts | lib/actions/agent-actions.ts:188-197 | After an update, every config row still references an agent and every row is within its column caps. |
| AgentActions.CreateThenFetch | lib/actions/agent-actions.ts:64-133 | After a successful create, the caller's newest listed agent is the new record, with the submitted fields (a name padded past its cap keeps only up to the cap), active and with equal timestamps. The look-up by id and the public look-up by slug return exactly that record. |
| AgentActions.AcceptedSlugIsNeverCut | lib/actions/agent-actions.ts:17-22 | A slug that passed the pattern and that its column takes is within the cap and stored whole. |
| AgentActions.StoredInsertedRow | lib/actions/agent-actions.ts:64-72 | The stored new row holds the caller, the slug, the prompt and the provider as submitted. It holds the name as its column keeps it, and is active with both timestamps equal to now. |
| AgentActions.PaddedNameIsCut | lib/db/schema.ts:16 | A name padded past 191 characters with spaces is taken by its column. The stored name keeps the unpadded name, followed only by spaces, up to the cap. |
| AgentActions.DuplicateSlugRejected | lib/actions/agent-actions.ts:55-61 | A second create with the same slug fails with "Slug already taken", whoever asks. At most one row is added. |
| Schema.NewAgent | lib/db/schema.ts:13-23 | A new agent row is active, and its createdAt and updatedAt equal the insertion time. |
| Schema.NewShopifyConfig | lib/db/schema.ts:25-40 | A new Shopify config has product recommendations on and shows at most 3 products. |
| Schema.NewUiConfig | lib/db/schema.ts:42-80 | A new ui config row has default values that fit their columns. |
| Schema.RowDeterminedByIdAndBySlug | lib/db/schema.ts:14-17 | Under the primary key and the unique slug, two rows with the same id, or with the same slug, are the same row. |
| Schema.RowDeterminedByCreation | lib/db/schema.ts:20-21 | In insertion order, creation times identify rows, and the last inserted row is the newest. |
| Schema.DeleteWhere | lib/db/schema.ts:27-29 | A delete keeps exactly the rows whose key differs from the id. |
| Schema.DeleteAgentCascade | lib/db/schema.ts:27-46 | Deleting an agent removes it and every Shopify and ui config row referencing it, and no other row. |
| Schema.DeleteWhereKeepsPairwise | lib/db/schema.ts:27-29 | A delete keeps the remaining rows in order, so any relation between earlier and later rows still holds. |
| Schema.CascadeKeepsConsistency | lib/db/schema.ts:13-46 | After the cascade the primary keys of all three tables and the agent slug stay unique, and the caps still hold. No config row references the deleted agent, and creation order is kept. |
| Schema.SeveralConfigsPerAgentAllowed | lib/db/schema.ts:83-100 | A consistent database can hold two Shopify configs and two ui configs for one agent. |
| UiCustomization.HexColorShape | components/ui-customization.tsx:20-31 | A colour is accepted exactly when it is `#` followed by exactly 3 or exactly 6 hex digits of either case. |
| UiCustomization.AcceptedColorsFitColumns | lib/db/schema.ts:47-50 | Accepted colours always fit their 20-character columns. |
| UiCustomization.AcceptedFormMayOverflowColumns | components/ui-customization.tsx:41-43 | The schema puts no upper bound on the header title. A form the schema accepts can therefore be longer than the 100-character `header_title` column, which refuses it unless the excess is all spaces. |
| UiCustomization.Stored | lib/db/schema.ts:42-80 | A stored row holds exactly the given settings for that agent. |
| UiCustomization.DefaultValuesAreValidColumnDefaults | components/ui-customization.tsx:55-73 | The form defaults pass the form schema and equal, setting by setting, the column defaults of a new `ui_configs` row. |
| UiCustomization.MergeIsFieldwise | components/ui-customization.tsx:90-92 | A key in the partial overwrites its setting. Every other setting is kept. |
| UiCustomization.MergeEmptyAndFull | components/ui-customization.tsx:90-92 | Merging `{}` is the identity. Merging a full set of settings replaces every setting. |
| UiCustomization.MergeIdempotentAndComposes | components/ui-customization.tsx:90-92 | Re-merging the same partial changes nothing. Two merges equal one merge of the combined partials. |
| UiCustomization.SaveToast | components/ui-customization.tsx:106-122 | The notice is destructive exactly when the save was refused. A save shows "Settings saved" with the success text. A refusal is titled "Error". It shows the response's message when that is non-empty, and "Failed to save UI configuration" otherwise. |
| UiCustomization.UiCustomizationForm.constructor | components/ui-customization.tsx:82-88 | The preview and the form start from existingConfig when given, else from the defaults, which validate. The form is not submitting. |
| UiCustomization.UiCustomizationForm.UpdatePreview | components/ui-customization.tsx:90-92 | The preview becomes the merge of the old preview and the partial. |
| UiCustomization.UiCustomizationForm.BeginSubmit | components/ui-customization.tsx:95 | The submitting flag is raised. |
| UiCustomization.UiCustomizationForm.FinishSubmit | components/ui-customization.tsx:106-124 | Whatever the outcome, the flag is lowered and the matching notice is shown. |
| AgentsPopup.FormSchemaAgreesWithServer | components/agents-popup.tsx:15-31 | The dialog's schema accepts exactly what the server's agent schema accepts. It reports a field exactly when the server does. |
| AgentsPopup.GenerateRandomString | components/agents-popup.tsx:34-41 | The result has exactly `length` characters. Character i is the alphabet letter at draw i. |
| AgentsPopup.SpelledCharsAreSlugChars | components/agents-popup.tsx:35 | Every character of the suffix is in `abcdefghijklmnopqrstuvwxyz0123456789`, and so allowed in a slug. |
| AgentsPopup.ToLowerChar | components/agents-popup.tsx:62 | The lowering maps `A`-`Z` to `a`-`z` and leaves every other character alone. |
| AgentsPopup.CollapseWhitespace | components/agents-popup.tsx:62 | After `replace(/\s+/g, "-")` no white space is left. |
| AgentsPopup.CollapseWithoutWhitespace | components/agents-popup.tsx:62 | A string without white space is left unchanged. |
| AgentsPopup.CollapseRun | components/agents-popup.tsx:62 | A white-space run of any length between two spans becomes exactly one `-`. |
| AgentsPopup.StripDisallowed | components/agents-popup.tsx:62 | After `replace(/[^a-z0-9-]/g, "")` only `[a-z0-9-]` is left. |
| AgentsPopup.StripKeepsSlugChars | components/agents-popup.tsx:62 | The strip step keeps every allowed character in order. |
| AgentsPopup.GeneratedSlugPassesValidator | components/agents-popup.tsx:62-63 | For any name, base + `-` + 6 random characters is at least 7 characters of `^[a-z0-9-]+$`. It passes both slug checks. |
| AgentsPopup.SupportBotExample | components/agents-popup.tsx:62 | "Support Bot" gives the base slug "support-bot". |
| AgentsPopup.DefaultsNeedOnlyAName | components/agents-popup.tsx:50-55 | The defaults have a prompt of at least 10 characters and the gemini provider. Only name and slug fail. With a name of 2 or more characters and its generated slug, the form is accepted. |
| AgentsPopup.AgentForm.constructor | components/agents-popup.tsx:48-56 | The dialog opens with the default values. |
| AgentsPopup.AgentForm.Watch | components/agents-popup.tsx:59-69 | The slug is regenerated from the name exactly when the changed field is the name and the name is non-empty. Otherwise nothing changes. |
| AgentsPopup.AgentForm.Edit | components/agents-popup.tsx:59-69 | Typing a non-empty name sets the name and a generated slug that matches the slug pattern. Any other edit sets only that field. |
| EmbedScript.LastIndexOf | public/embed.js:142 | The result is the last position of the character, or -1 when the character does not occur. |
| EmbedScript.Substring | public/embed.js:142 | Within the string, `substring(0, end)` is the prefix up to `end`, and a negative end gives all of the prefix before start. |
| EmbedScript.SubstringClampsAndSwaps | public/embed.js:142 | `substring` gives the same result with its ends swapped, and the same with both ends clamped to the string. |
| EmbedScript.BaseUrlFromSrc | public/embed.js:141-142 | The base is the src up to, but not including, its last `/`. It is empty when the src has no `/`. |
| EmbedScript.LastSlashBeforeFileName | public/embed.js:142 | After base + `/` + a file name without `/`, the last `/` is the one after the base. |
| EmbedScript.BaseUrlOfEmbedScript | public/embed.js:141-144 | Cutting `base/embed.js` at its last `/` gives exactly `base`. |
| EmbedScript.FindScriptTag | public/embed.js:97-98 | Use `document.currentScript` when present, else the first `script[data-slug]`. There is no tag only when both are absent. |
| EmbedScript.Dispatch | public/embed.js:305-324 | It closes exactly on type chattercraft-widget with action close. It bounces exactly on that type with action bounce. Anything else is ignored. |
| EmbedScript.EmbedWidget.constructor | public/embed.js:328-332 | Outside the top window (the guard at line 3) the script does nothing. While the page is loading it waits for DOMContentLoaded. Otherwise it builds at once. |
| EmbedScript.EmbedWidget.CreateChatWidget | public/embed.js:5-166 | The style sheet is added first. Without a script tag the script throws. Without a slug it logs the error and appends nothing. Otherwise it appends the closed launcher, then the container whose frame loads base + `/chat/` + slug. |
| EmbedScript.EmbedWidget.DomContentLoaded | public/embed.js:328-329 | A waiting script builds exactly once, from the first `script[data-slug]`: the listener runs when `document.currentScript` is null. Otherwise nothing changes. |
| EmbedScript.EmbedWidget.ClickLauncher | public/embed.js:185-237 | Each click flips `isOpen`, showing or hiding the container. The body, the errors and the pending listener are unchanged. |
| EmbedScript.EmbedWidget.ClickCloseButton | public/embed.js:277-300 | The widget ends closed, with the launcher reset. The launcher's handler does not run. The body, the errors and the pending listener are unchanged. |
| EmbedScript.EmbedWidget.ReceiveMessage | public/embed.js:305-324 | A close message closes the widget. A bounce only animates. Anything else leaves `isOpen` unchanged. There is no effect before mounting. The body, the errors and the pending listener are unchanged. |
| EmbedScript.OpenThenCloseByMessage | public/embed.js:141-313 | A tag with a slug in a loaded top window mounts a widget with launcher and frame `base/chat/slug`. A click opens it and a close message closes it again. |
| AgentTabs.BaseUrl | components/agent-page/agent-tabs.tsx:12 | The result is NEXT_PUBLIC_BASE_URL when it is set and non-empty, else `http://localhost:3000`. It is never empty. |
| AgentTabs.TakeUntilQuote | components/agent-page/agent-tabs.tsx:14 | An attribute value runs up to its first `"`. |
| AgentTabs.ParseWellFormedTag | components/agent-page/agent-tabs.tsx:14 | A tag whose attribute values contain no `"` reads back as exactly those values. |
| AgentTabs.EmbedCodeReadsBack | components/agent-page/agent-tabs.tsx:14 | The embed tag for a quote-free address and slug reads back as src `baseUrl/embed.js` with data-slug `slug`. |
| AgentTabs.ValidSlugIsQuoteFree | components/agent-page/agent-tabs.tsx:14 | A slug that passed validation contains no `"`. |
| AgentTabs.WidgetOpensTestUrl | components/agent-page/agent-tabs.tsx:13-14 | For a validated slug, the frame that embed.js builds from the pasted tag is exactly the page's testUrl. |
| AgentTabs.QuoteInSlugBreaksTag | components/agent-page/agent-tabs.tsx:14 | A slug containing `"` does not read back as itself. |
| EmbedCodeCard.CardAgreesWithAgentPage | components/embed-code.tsx:12-15 | With the same address and slug, the card's tag is the agent page's tag. With the address omitted, it uses `https://chatappsaas.ai`. |
| EmbedCodeCard.EmbedCodeView.constructor | components/embed-code.tsx:12-15 | The view starts with the card's tag and not copied. |
| EmbedCodeCard.EmbedCodeView.CopyToClipboard | components/embed-code.tsx:17-19 | Copying writes the tag to the clipboard and sets copied. |
| EmbedCodeCard.EmbedCodeView.CopiedTimerFires | components/embed-code.tsx:20 | The flag goes back to false and the clipboard is left alone. |
| ChatWidgetPreview.ButtonCorner | components/chat-widget-preview.tsx:79-92 | The four named positions map to their corners. Any other value maps to bottom-right. |
| ChatWidgetPreview.OfferedPositionsCoverCorners | components/ui-customization.tsx:254-257 | The four offered positions give four different corners, and every corner is offered. |
| ChatWidgetPreview.ButtonIcon | components/chat-widget-preview.tsx:64-77 | Every icon value draws the same icon. |
| ChatWidgetPreview.PreviewChat.constructor | components/chat-widget-preview.tsx:32-37 | The chat starts closed with one assistant message, the welcome message. The input is empty and the typing flag is off. |
| ChatWidgetPreview.PreviewChat.Rerender | components/chat-widget-preview.tsx:31-35 | New settings leave the conversation as it was. |
| ChatWidgetPreview.PreviewChat.TypeInput | components/chat-widget-preview.tsx:36 | Only while the window is open, the input holds the typed text. |
| ChatWidgetPreview.PreviewChat.SendMessage | components/chat-widget-preview.tsx:39-62 | Only while the window is open. Blank input changes nothing. Otherwise a user message with the untrimmed input is appended, the input is cleared, typing is set, and a reply to exactly this list is scheduled. |
| ChatWidgetPreview.PreviewChat.ReplyArrives | components/chat-widget-preview.tsx:51-61 | The messages become that send's list plus the canned reply, and typing is turned off. |
| ChatWidgetPreview.PreviewChat.ClickLauncher | components/chat-widget-preview.tsx:102 | The launcher flips `isOpen`. |
| ChatWidgetPreview.PreviewChat.ClickHeaderClose | components/chat-widget-preview.tsx:161 | The header X sets `isOpen` to false. |
| ChatWidgetPreview.SendThenReply | components/chat-widget-preview.tsx:33-61 | After opening the window, one exchange gives the welcome, the user's text and the canned reply, in that order. |
| ChatWidgetPreview.TwoSendsLoseFirstReply | components/chat-widget-preview.tsx:43-61 | Two sends before the first reply end with both user messages and a single reply. The second timer overwrites the list. |
| ChatDemo.ScriptAlternatesFromBot | components/home/ChatDemoSection.tsx:8-34 | The script has five entries, alternating bot and user and starting with the bot. Each delay is half a second after the previous one. |
| ChatDemo.CountSnoc | components/home/ChatDemoSection.tsx:44-59 | Appending one entry adds one to the count of its own role and leaves the other role's count. Each send and each reply keep the reply balance of the class invariant by this step. |
| ChatDemo.DemoChat.constructor | components/home/ChatDemoSection.tsx:37-38 | The log starts as the script and the input is empty. |
| ChatDemo.DemoChat.TypeMessage | components/home/ChatDemoSection.tsx:37 | The input holds the typed text. |
| ChatDemo.DemoChat.HandleSend | components/home/ChatDemoSection.tsx:40-60 | Blank input is a no-op. Otherwise one user entry with the untrimmed text and delay 0 is appended, the input is cleared and a reply is pending. The script prefix and the reply balance are kept. |
| ChatDemo.DemoChat.BotReplyArrives | components/home/ChatDemoSection.tsx:53-59 | The canned answer is appended to the current log, so the log grows by one and every earlier entry is kept. |
| ChatDemo.TwoSendsKeepBothReplies | components/home/ChatDemoSection.tsx:44-59 | Two sends before either reply keep both user entries and both answers. |
| Testimonials.NextIndex | components/home/TestimonialsSection.tsx:42-44 | The result is (i+1) mod 4: the next index, wrapping from 3 to 0. |
| Testimonials.PrevIndex | components/home/TestimonialsSection.tsx:46-48 | The result is (i-1+4) mod 4: the previous index, wrapping from 0 to 3. |
| Testimonials.StepsAreInverse | components/home/TestimonialsSection.tsx:42-48 | next after prev, and prev after next, are the identity on valid indices. |
| Testimonials.NextTimes | components/home/TestimonialsSection.tsx:43 | After at least one press the index is below 4. |
| Testimonials.NextTimesAdvances | components/home/TestimonialsSection.tsx:43 | k presses of next move the index by k places mod 4. |
| Testimonials.FullRoundReturns | components/home/TestimonialsSection.tsx:43 | Four presses of next return to the start. |
| Testimonials.Carousel.constructor | components/home/TestimonialsSection.tsx:40 | The index starts at 0. |
| Testimonials.Carousel.Shown | components/home/TestimonialsSection.tsx:84 | The shown testimonial, `testimonials[currentIndex]`, is in bounds and is one of the four. |
| Testimonials.Carousel.Next | components/home/TestimonialsSection.tsx:42-44 | The index becomes NextIndex and stays in [0, 4). |
| Testimonials.Carousel.Prev | components/home/TestimonialsSection.tsx:46-48 | The index becomes PrevIndex and stays in [0, 4). |
| Faq.Toggle | components/home/FaqSection.tsx:24-26 | Toggling the open item closes everything. Toggling any other item opens it. |
| Faq.ToggleOpensOnlyIndex | components/home/FaqSection.tsx:25 | After a toggle of i, an item is open exactly when it is i and i was closed before. |
| Faq.ToggleTwice | components/home/FaqSection.tsx:25 | Two toggles of i restore the state exactly when nothing or i was open before. |
| Faq.OpenIsLastClicked | components/home/FaqSection.tsx:25 | After any clicks, the open item is the last one clicked. When all are closed, the last click closed the item it named. |
| Faq.DoubleClickFromClosed | components/home/FaqSection.tsx:22-25 | With all closed, two clicks on the same item close it again. |
| Faq.AtMostOneAnswer | components/home/FaqSection.tsx:49-69 | Over any list of entries, at most one answer is rendered, and it is the open item's; none is rendered when all are closed. |
| Faq.Accordion.constructor | components/home/FaqSection.tsx:22 | Initially no item is open. |
| Faq.Accordion.ToggleFaq | components/home/FaqSection.tsx:24-26 | The state becomes Toggle of the old state, and the open item stays a valid index. |
| Text.TrimStart | components/agents-popup.tsx:62 | `trimStart` removes the longest white-space prefix. |
| Text.TrimEnd | components/chat-widget-preview.tsx:40 | `trimEnd` removes the longest white-space suffix. |
| Text.TrimEmptyIffBlank | components/chat-widget-preview.tsx:40 | `!s.trim()` holds exactly when every character is ECMAScript white space. |

## Left out

- Persistence, auth and caching are foreign calls, and the model replaces them.
  - The drizzle connection and migrations are not modelled.
  - The identity provider's `auth()` becomes an `Option<UserId>` argument.
  - `revalidatePath` is not modelled.
  - The catch-all "Failed to … Please try again." result is reached only when a `varchar` column refuses a value: one longer than the cap with a character other than a space past it. A longer value whose excess is all spaces is cut to the cap and stored, as the database does. Other database failures are not modelled.
- Concurrency: the actions run one at a time. The check-then-insert race on the slug is not modelled; the unique slug is a class invariant instead.
- Time and ids:
  - `createdAt`/`updatedAt` come from a logical clock that ticks once per write;
  - generated uuids come from a counter;
  - preview message timestamps, which only feed the display, are dropped.
- Timers, DOM, styling and animation:
  - each `setTimeout` is an event the caller fires (preview reply, demo reply, copied reset);
  - embed.js folds its close animation into the close button's handler;
  - interleavings of overlapping timers are modelled only for the preview and the demo, by their scenario methods;
  - hover effects, spinners, CSS and the bounce animation (a counter here) are not modelled.
- `document.currentScript` and `querySelector` are arguments of the widget's constructor. The deferred build takes only the `querySelector` result.
- AgentTabs.WidgetOpensTestUrl: the frame address is built from the raw `src` text of the tag. A browser resolves `scriptTag.src` first: it lower-cases the scheme and host, drops a default port, resolves a relative address and decodes character references such as `&amp;`. The equality is not promised for a base address that resolution would change.
- Message origin checks do not exist in embed.js, and none are modelled.
- AgentsPopup.ToLower: only ASCII letters are lowered. `\s` is the full ECMAScript white-space set. Zod's length counts UTF-16 code units, while here a string is a sequence of characters.
- The form's numeric fields are integers. `z.coerce.number` string-to-number coercion and fractional values are not modelled.
- AgentActions.FieldMessages: the provider's message is "Invalid enum value". The validation library's message also lists the expected values and the received one, and that text is not modelled.
- The create dialog's `onSubmit` and navigation are not modelled. Line 89 of components/agents-popup.tsx reads `result.details[0].id`, but `createAgent` returns only `{ success: true }` (lib/actions/agent-actions.ts:74). The model returns what the action defines.
- UiCustomization.UiCustomizationForm.FinishSubmit: a network failure of `fetch` throws its own error message. The model has only an accepted and a refused response.
- UiCustomization.UiFormPatch: a key is present or absent. A JavaScript partial holding the key with the value `undefined` is not modelled.
- The Shopify integration and the test route are commented out, so they are not modelled. Only the `shopify_configs` table is.
- Streaming chat and the LLM providers are not part of this model.
- The agent page's clipboard copy of the test link (components/agent-page/agent-tabs.tsx:68) is not modelled. The embed-code card's copy is.
- The marketing and layout components hold no logic and are not modelled: hero, pricing, features, how-it-works, trusted-by, call-to-action, header, footer, layout, theme provider, agent header and delete button.
- The schema declares the agent's UI and Shopify relations as `many` (lib/db/schema.ts:83-100), and `agent_id` is not unique. So an agent may have several config rows of each kind (`Schema.SeveralConfigsPerAgentAllowed`), and no one-config-per-agent rule is modelled.
