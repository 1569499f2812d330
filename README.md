# my-financial-compass in Dafny

A Dafny model of the logic of *my-financial-compass*, a Hebrew personal-finance
dashboard. The dashboard keeps financial items, alerts and documents. Items and
documents are stored in Supabase. Items can also be added by WhatsApp message,
and a chat answers questions about the data. The model covers:

- the in-memory application state (`AppContext`): the seed data, the search,
  marking alerts read, adding items and documents, the category cards, and the
  open/closed flags of the panels;
- the figures derived from it (`DashboardPage`, `SectionStats`, `ItemCard`) and
  the list filters (`SectionFilters`, `DocumentsPage`, `SearchModal`);
- the modals that change it (`AddItemModal`, `UploadDocumentModal`,
  `MobileMenu`, `SharingModal`) and the keyword chat (`Chat`);
- the data hooks (`FinancialItemsHook`, `DocumentsHook`): how database rows
  become items and documents, and how items and documents are inserted, patched
  and uploaded;
- the WhatsApp side (`WhatsAppParser`, `WhatsAppWebhook`), the renewal
  reminders (`ReminderService`), and the context text built for the OpenAI
  prompt (`OpenAIService`).

Shared modules: `Wrappers` (Option/Result), `Text` (the JavaScript string
operations used: `includes`, `replace` of the first match, `trim`,
`toLowerCase`, `parseFloat`, number printing), `Seqs` (filter, subsequence,
first index, de-duplication) and `Domain` (the records and category codes).

Modelling conventions:

- Money is `real`.
- Dates are day numbers (`Day = int`).
- Categories and statuses are strings, because the source casts database text
  without checking it.
- Lower-casing is ASCII-only, so Hebrew text is its own lower case.
- Number and date formatting (`toLocaleString`, the Hebrew date) are function
  parameters.
- Clock readings (`Date.now()`) are parameters.
- What remote services answer (Supabase queries, inserts, storage, WhatsApp
  sends) is a parameter. The tables and storage these calls change are fields
  of classes.

Where the source changes state, the model is a class:

- `AppContext.AppState` is the provider. Its `State()` snapshot lets every
  handler that uses it state its whole effect.
- The other classes are the modals' own state, the chat panel, the documents
  store, the webhook's outbox and the sharing modal.

## Model

| member | source | states |
|---|---|---|
| AppContext.SearchResults | src/contexts/AppContext.tsx:136-142 | an empty query finds nothing; otherwise exactly the items whose name, institution or product type contains the query, in item order, each as often as it occurs |
| AppContext.SearchNarrows | src/contexts/AppContext.tsx:136-142 | every result for a longer query is also a result for its prefix |
| AppContext.MarkRead | src/contexts/AppContext.tsx:149-153 | same length; alerts with the id become read, all others are unchanged |
| AppContext.MarkReadCount | src/contexts/AppContext.tsx:149-160 | the unread count drops by exactly the number of unread alerts with that id |
| AppContext.MarkReadIdempotent | src/contexts/AppContext.tsx:149-153 | marking the same id twice is the same as marking it once |
| AppContext.MarkReadClears | src/contexts/AppContext.tsx:149-153 | afterwards no unread alert has that id |
| AppContext.UnreadCount | src/contexts/AppContext.tsx:160 | at most the number of alerts, and 0 exactly when every alert is read |
| AppContext.Categories | src/contexts/AppContext.tsx:163-204 | five cards in fixed order; each item card holds its category's total and count; the documents card holds 0 and the number of documents |
| AppContext.CategoriesCoverItems | src/contexts/AppContext.tsx:163-204 | when every item has one of the four categories, the card values add up to the item total and the counts to the number of items |
| AppContext.InitialFigures | src/contexts/AppContext.tsx:95-116 | the seed items are worth 2,825,500 in all and three seed alerts are unread |
| AppContext.AppState.constructor | src/contexts/AppContext.tsx:119-134 | the initial state: the dashboard section, the seed data, every panel closed, an empty query |
| AppContext.AppState.AddItem | src/contexts/AppContext.tsx:144-147 | appends the item with the clock reading as its id; nothing else changes |
| AppContext.AppState.MarkAlertAsRead | src/contexts/AppContext.tsx:149-153 | the alerts become `MarkRead` of the old ones, so the unread count drops by the matching unread alerts; nothing else changes |
| AppContext.AppState.AddDocument | src/contexts/AppContext.tsx:155-158 | appends the document with the clock reading as its id; nothing else changes |
| AppContext.AppState.SetActiveSection | src/contexts/AppContext.tsx:119 | changes the active section only |
| AppContext.AppState.SetSearchQuery | src/contexts/AppContext.tsx:134 | changes the query only |
| AppContext.AppState.SetSearchModalOpen | src/contexts/AppContext.tsx:127 | changes that flag only |
| AppContext.AppState.SetMobileMenuOpen | src/contexts/AppContext.tsx:131 | changes that flag only |
| AppContext.AppState.SetChatOpen | src/contexts/AppContext.tsx:130 | changes that flag only |
| AppContext.AppState.SetSettingsOpen | src/contexts/AppContext.tsx:129 | changes that flag only |
| AppContext.AppState.SetAddItemModalOpen | src/contexts/AppContext.tsx:125 | changes that flag only |
| AppContext.AppState.SetUploadModalOpen | src/contexts/AppContext.tsx:126 | changes that flag only |
| Domain.TotalAppend | src/contexts/AppContext.tsx:167 | the total of a concatenation is the sum of the totals |
| Domain.CategoriesPartition | src/contexts/AppContext.tsx:163-195 | the four category totals and counts add up to the whole total and count |
| DashboardPage.CategoryValue | src/pages/sections/DashboardPage.tsx:14-17 | the value of the first card with the id, or 0 when no card has it |
| DashboardPage.Distribution | src/pages/sections/DashboardPage.tsx:13-18 | always four slices (assets, investments, finance, insurance), each holding its card's value |
| DashboardPage.DashboardOfStore | src/pages/sections/DashboardPage.tsx:11-18 | with the provider's cards, the net worth is the total of all items and each slice is its category's total |
| DashboardPage.StoreCards | src/pages/sections/DashboardPage.tsx:11-18 | for any items, the net worth is the sum of the five cards, and the slices are the assets, investments, finance and insurance cards |
| DashboardPage.DistributionSumsToNetWorth | src/pages/sections/DashboardPage.tsx:11-18 | for any items, the four slices add up to the net worth: the only other card is the documents card, worth 0 |
| DashboardPage.ChangePercent | src/pages/sections/DashboardPage.tsx:20-23 | 0 when the net worth is not positive, otherwise the constant 300/97 whatever the net worth |
| ItemCard.DaysUntilExpiry | src/components/sections/ItemCard.tsx:30-37 | no count exactly when there is no expiry; otherwise expiry = today + count |
| ItemCard.ExpiryClassification | src/components/sections/ItemCard.tsx:39-41 | never both expiring soon and expired; expiring soon is 1 to 30 days, expired is 0 days or less, no expiry is neither |
| ItemCard.StatusLabel | src/components/sections/ItemCard.tsx:56-67 | the three known statuses get their labels; any other status is shown as it is |
| ItemCard.StatusLabelsDistinct | src/components/sections/ItemCard.tsx:56-67 | different known statuses have different labels |
| ItemCard.ExpiryText | src/components/sections/ItemCard.tsx:127-131 | no line without an expiry; "expired" text first, then "in N days", then the formatted date |
| SectionFilters.ApplyFilters | src/components/sections/SectionFilters.tsx:29-59 | the filtered list is exactly the items that pass every active stage, in item order |
| SectionFilters.RunStages | src/components/sections/SectionFilters.tsx:30-55 | running the four filters one after another leaves exactly the items that pass all four, in order |
| SectionFilters.FilterPasses | src/components/sections/SectionFilters.tsx:29-59 | running the four stages one after another equals one filter by all active tests |
| SectionFilters.SelectsHold | src/components/sections/SectionFilters.tsx:42-55 | each select that is not "all" holds for every item that passes |
| SectionFilters.NoFiltersKeepsAll | src/components/sections/SectionFilters.tsx:29-59 | with no search text and every select on "all", nothing is filtered out |
| SectionFilters.Institutions | src/components/sections/SectionFilters.tsx:25 | each institution of the items exactly once |
| SectionFilters.Subcategories | src/components/sections/SectionFilters.tsx:26 | each non-empty subcategory of the items exactly once, and nothing else |
| SectionStats.GroupOf | src/components/sections/SectionStats.tsx:22 | the subcategory, or "other" when it is missing or empty |
| SectionStats.SubcategoryStats | src/components/sections/SectionStats.tsx:21-29 | the dictionary's keys are the distinct groups in first-seen order; each entry holds its group's item count and value sum |
| SectionStats.GroupedMeaning | src/components/sections/SectionStats.tsx:21-29 | the accumulator read back: its keys are the distinct groups in order of first appearance, and each entry is its group's item count and value sum |
| SectionStats.ChartData | src/components/sections/SectionStats.tsx:31-46 | one slice per key, in dictionary order, named after its group, with that group's value and count, the i-th slice coloured with colour i modulo six |
| SectionStats.ChartCoversStats | src/components/sections/SectionStats.tsx:31-68 | the slices' values add up to the dictionary's value sums and their counts to its counts, so with `SubcategoryStats` the pie covers every item and the total value |
| SectionStats.ColorsCycle | src/components/sections/SectionStats.tsx:32-44 | slices six apart share a colour |
| SectionStats.ColorsDistinct | src/components/sections/SectionStats.tsx:32-39 | the six colours are different |
| SectionStats.ActiveCount | src/components/sections/SectionStats.tsx:49 | the number of active items |
| SectionStats.ExpiringSoonAsCard | src/components/sections/SectionStats.tsx:50-57 | the panel's "expiring soon" is the card's |
| SectionStats.ExpiringSoonCount | src/components/sections/SectionStats.tsx:50-57 | the number of items expiring in 1 to 30 days |
| SectionStats.ExpiringSoonIgnores | src/components/sections/SectionStats.tsx:50-57 | an item without an expiry never adds to the count |
| SectionStats.Panel | src/components/sections/SectionStats.tsx:48-78 | nothing exactly for an empty list; otherwise the summary of the total value of all items, the number of active items and the number expiring in 1 to 30 days, both counts at most the number of items |
| Chat.GetAIResponse | src/components/modals/ChatPanel.tsx:16-51 | on the lower-cased query: the car answer exactly when a car is asked about, with the first car item or none; passport exactly when not car; pension exactly when neither, with the investments total or none; insurance cost exactly when none of those three, with the insurance total; net worth exactly when none of the four, with the total of all items; help otherwise |
| Chat.CarPhraseSubsumed | src/components/modals/ChatPanel.tsx:19 | the "car insurance" test is subsumed by the "car" test |
| Chat.NetWorthIsSumOfCategories | src/components/modals/ChatPanel.tsx:45-47 | the net-worth answer is the sum of the four category totals |
| Chat.Render | src/components/modals/ChatPanel.tsx:16-51 | each reply's text quotes the institution and formatted amounts it is about |
| Chat.ChatPanel.constructor | src/components/modals/ChatPanel.tsx:55-63 | one greeting message from the bot, empty input |
| Chat.ChatPanel.HandleSend | src/components/modals/ChatPanel.tsx:65-77 | blank input is ignored; otherwise the text is posted as a user message, the input cleared and a reply scheduled |
| Chat.ChatPanel.DeliverReply | src/components/modals/ChatPanel.tsx:79-88 | the oldest scheduled reply is posted as a bot message answering the text it was scheduled for; every user message is answered once |
| ReminderService.Select | src/services/reminderService.ts:24-31 | exactly the selected columns of the user's active rows whose expiry is between today and today + window, one per due row, in table order |
| ReminderService.CheckRenewalReminders | src/services/reminderService.ts:15-39 | nothing without a user or when the query fails; otherwise the selected rows |
| ReminderService.WiderWindowKeepsReminders | src/services/reminderService.ts:20-31 | a wider window never drops a reminder |
| ReminderService.DueDaysInWindow | src/services/reminderService.ts:24-31 | a selected item is between 0 and `daysBefore` days from expiry |
| ReminderService.DaysUntilExpiry | src/services/reminderService.ts:48-51 | today plus the day count is the expiry day |
| ReminderService.CategoryLabel | src/services/reminderService.ts:53-60 | the table's name for the four categories, otherwise the code itself |
| ReminderService.CategoryLabelsDistinct | src/services/reminderService.ts:53-58 | different categories have different names |
| ReminderService.ReminderTextMentions | src/services/reminderService.ts:61-63 | the message names the item, its category, the renewal date and the days left |
| ReminderService.ToReminder | src/services/reminderService.ts:4-10 | the row under the interface's field names, each field holding the column of the same meaning |
| ReminderService.ReminderAsWrittenLosesDate | src/services/reminderService.ts:38-63 | as written, the message reads "Invalid Date" and "NaN" and is the same whatever the row's expiry date |
| ReminderService.SendEach | src/services/reminderService.ts:83-96 | every reminder is tried once: sent plus failed is the number of reminders, sent counts the deliveries, and the messages are the reminders' texts in order |
| ReminderService.SendAllReminders | src/services/reminderService.ts:76-97 | as written: nothing to send gives 0/0; otherwise one message per selected row in order, each reading "Invalid Date", `sent` counting the deliveries and `failed` the rest |
| ReminderService.SendAllRemindersCorrected | src/services/reminderService.ts:76-97 | corrected: the same counts, and each message is the reminder text of its row, stating its renewal date and the days left |
| WhatsAppParser.ParseWhatsAppMessage | src/services/whatsappParser.ts:16-33 | a query carries the original message and nothing else; an unknown message carries nothing; an add never carries a query |
| WhatsAppParser.ParseClassification | src/services/whatsappParser.ts:17-32 | on the lower-cased, trimmed text: an add exactly when an add keyword occurs; a query exactly when no add keyword but a query keyword occurs |
| WhatsAppParser.AddBeforeQuery | src/services/whatsappParser.ts:20-25 | a message containing the Hebrew add keyword is an add, whatever question it also asks and whatever white space surrounds it |
| WhatsAppParser.UpperCaseAddHasNoName | src/services/whatsappParser.ts:16-84 | "ADD" classifies as an add, but without a case-sensitive keyword no name is extracted |
| WhatsAppParser.CategoryOf | src/services/whatsappParser.ts:41-50 | one of the four item categories: that of the first keyword group the message mentions, no earlier group being mentioned; none exactly when it mentions no group |
| WhatsAppParser.InstitutionIndex | src/services/whatsappParser.ts:52-59 | the first institution in list order that the message contains |
| WhatsAppParser.InstitutionOf | src/services/whatsappParser.ts:52-59 | the first listed institution the message contains, no earlier one being contained; none exactly when it contains none |
| WhatsAppParser.InstitutionByListOrder | src/services/whatsappParser.ts:53-59 | an earlier list entry wins even if it appears later in the message |
| WhatsAppParser.FindInstitution | src/services/whatsappParser.ts:53-59 | the loop stops at the first listed institution the message contains, and finds none when it contains none |
| WhatsAppParser.ValueMatch | src/services/whatsappParser.ts:62 | a match exactly when the message has a digit; the match starts with a digit and occurs in the message at its first digit |
| WhatsAppParser.ValueStart | src/services/whatsappParser.ts:62 | the position of the first digit, or -1 exactly when there is none |
| WhatsAppParser.ValueOf | src/services/whatsappParser.ts:62-65 | a value exactly when there is a match; it is `parseFloat` of the match without its commas, and never negative |
| WhatsAppParser.ValueOfSingleNumber | src/services/whatsappParser.ts:62-65 | a message holding one plain number yields that number |
| WhatsAppParser.ValueOfGroupedNumber | src/services/whatsappParser.ts:62-65 | a number with a `,ddd` group after text without digits matches whole and reads as a thousand times its leading digits plus the group |
| WhatsAppParser.ValueOfFraction | src/services/whatsappParser.ts:62-65 | a number with a fraction after text without digits matches whole and reads as its decimal value |
| WhatsAppParser.AmountExamples | src/services/whatsappParser.ts:62-65 | after text without digits, "1,500" reads as 1500 and "12.5" as 12.5 |
| WhatsAppParser.AddIndex | src/services/whatsappParser.ts:68-72 | -1 exactly when the message contains none of the three keywords |
| WhatsAppParser.AddIndexIsLatest | src/services/whatsappParser.ts:68-72 | the largest of the three first keyword positions |
| WhatsAppParser.NameOf | src/services/whatsappParser.ts:67-84 | none exactly when no keyword occurs; otherwise the text from four characters after the latest keyword, trimmed, with the first occurrence of the institution and then of the matched number cut out, or the default name exactly when that leaves nothing; never empty |
| WhatsAppParser.NameFromTail | src/services/whatsappParser.ts:73-84 | the name has no white space at either end; unless it is the default it is made of characters of the text after the keyword, with the institution's characters taken out when it is found there |
| WhatsAppParser.CutFieldsChars | src/services/whatsappParser.ts:76-82 | the two cuts keep the text trimmed and only take characters out, the institution's when it is there |
| WhatsAppParser.CutOneChars | src/services/whatsappParser.ts:78 | one cut leaves a trimmed text with the pattern's characters taken out when it occurs, and nothing else |
| WhatsAppParser.ParseAddCommand | src/services/whatsappParser.ts:38-87 | fills category, institution, value and name as the functions above say |
| WhatsAppParser.AddCommand | src/services/whatsappParser.ts:38-39 | an add command, never carrying a query |
| WhatsAppParser.CarInsuranceExample | src/services/whatsappParser.ts:38-87 | the worked example: category insurance, institution Harel, value 5000 |
| WhatsAppParser.PastTenseKeepsFinalLetter | src/services/whatsappParser.ts:68-74 | after the five-letter past-tense keyword, the name keeps that keyword's final letter |
| WhatsAppParser.ItemFromCommand | src/services/whatsappParser.ts:96-108 | only an add with a category makes an item; missing fields take their defaults |
| WhatsAppParser.CreateItemFromCommand | src/services/whatsappParser.ts:92-131 | an invalid command gives the validation error and a failed insert its error; a valid command with a successful insert gives the item with the new id and exactly the name, institution, product type, value, category, status and date that validation fixed, with no expiry and no subcategory |
| WhatsAppWebhook.PhoneOf | src/api/webhooks/whatsapp.ts:29 | the chat id without the first `@c.us` |
| WhatsAppWebhook.PhoneDropsSuffix | src/api/webhooks/whatsapp.ts:29 | a number written with the suffix is looked up without it |
| WhatsAppWebhook.FindUser | src/api/webhooks/whatsapp.ts:33-37 | the first user in directory order whose phone or metadata phone is the number, no earlier user matching; none only when the directory gave nothing or nobody has it |
| WhatsAppWebhook.Replies | src/api/webhooks/whatsapp.ts:26-77 | one reply per message, or two exactly when an added item's reply fails to send |
| WhatsAppWebhook.StatusAfter | src/api/webhooks/whatsapp.ts:79-82 | 200 or 500, and 500 exactly when the last send threw |
| WhatsAppWebhook.CaughtSendIsOk | src/api/webhooks/whatsapp.ts:47-79 | when sending a created item's details throws and the error reply goes through, the replies are the details then that error, and the answer is 200 |
| WhatsAppWebhook.Webhook.HandleWhatsAppWebhook | src/api/webhooks/whatsapp.ts:11-84 | anything but an incoming text gets 200 and no reply; otherwise the replies are sent to the chat in order, and the status is 500 exactly when the last send throws |
| WhatsAppWebhook.Webhook.Dispatch | src/api/webhooks/whatsapp.ts:24-79 | the sends and the status for one parsed command |
| WhatsAppWebhook.Webhook.ReplyToAdd | src/api/webhooks/whatsapp.ts:39-63 | an add is answered by the not-found reply, the creation error, or the item's details followed by an error reply when that send throws, and the last send's error is returned |
| WhatsAppWebhook.Webhook.Send | src/lib/greenApi.ts:50-53 | the message joins the outbox, addressed to the chat, and the send's error, if any, is returned |
| WhatsAppWebhook.AddedReplyFields | src/api/webhooks/whatsapp.ts:48-57 | the success reply carries the command's name, institution, category and value, or their defaults |
| OpenAIService.FormatFinancialData | src/services/openaiService.ts:21-55 | the built text is the header followed by the items, alerts and documents sections |
| OpenAIService.Context | src/services/openaiService.ts:21-22 | the text begins with the fixed header |
| OpenAIService.AppendItems | src/services/openaiService.ts:25-35 | appends the items section to the text so far |
| OpenAIService.AppendAlerts | src/services/openaiService.ts:38-44 | appends the alerts section to the text so far |
| OpenAIService.AppendDocuments | src/services/openaiService.ts:47-52 | appends the documents section to the text so far |
| OpenAIService.AppendItemLines | src/services/openaiService.ts:27-33 | one line per item, in order |
| OpenAIService.AppendAlertLines | src/services/openaiService.ts:40-42 | one line per unread alert, in order, appended to the context |
| OpenAIService.AppendDocumentLines | src/services/openaiService.ts:49-51 | one line per document, in order, appended to the context |
| OpenAIService.ItemLine | src/services/openaiService.ts:28-32 | the line names the item, institution, category and amount, and the expiry when there is one |
| OpenAIService.ExpirySuffixOnly | src/services/openaiService.ts:28-32 | the expiry changes only the suffix: without one the line is the plain line, with one it is the plain line with the expiry part put before the newline |
| OpenAIService.ItemsSection | src/services/openaiService.ts:25-35 | present exactly when there are items |
| OpenAIService.AlertsSection | src/services/openaiService.ts:38-44 | present whenever there are alerts, listing only the unread ones |
| OpenAIService.DocumentsSection | src/services/openaiService.ts:47-52 | present exactly when there are documents |
| OpenAIService.ItemsSectionLines | src/services/openaiService.ts:25-35 | without line breaks in the item texts, the section has one line per item plus the title and the blank line |
| OpenAIService.AllReadAlerts | src/services/openaiService.ts:38-44 | when every alert is read, the section is only its title and a blank line |
| OpenAIService.ReportedError | src/services/openaiService.ts:105-114 | a message containing "API key" becomes the configuration error; a missing or empty one becomes the connection prefix with "שגיאה לא ידועה"; any other becomes the connection prefix followed by the message |
| OpenAIService.AIResponse | src/services/openaiService.ts:98-114 | without a key, the configuration error; a failed call, the reported error of its message; no or empty content, the connection error with "No response from OpenAI"; non-empty content is the answer, and only then is there an answer |
| OpenAIService.MissingKeyMentionsKey | src/services/openaiService.ts:109-110 | the missing-key message is reported as the configuration error |
| FinancialItemsHook.ValueOf | src/hooks/useFinancialItems.ts:25 | a number as it is; a text through `parseFloat` with NaN kept out; null as 0 |
| FinancialItemsHook.RowToItem | src/hooks/useFinancialItems.ts:20-31 | the item read from a row: missing product type `''`, empty subcategory none, missing date today |
| FinancialItemsHook.ReadItems | src/hooks/useFinancialItems.ts:11-31 | nothing without a user id; otherwise one item per row, in order |
| FinancialItemsHook.InsertRow | src/hooks/useFinancialItems.ts:36-59 | fails without a user; otherwise the row with the user id, an empty subcategory as null, the expiry |
| FinancialItemsHook.InsertThenRead | src/hooks/useFinancialItems.ts:20-59 | inserting and reading back gives the item with the new id |
| FinancialItemsHook.BuildPatch | src/hooks/useFinancialItems.ts:70-80 | name, institution, product type, category and status each present exactly when given and non-empty, and then as given; the value whenever given (0 too); a given subcategory written with `''` as null; the dates whenever given |
| FinancialItemsHook.UpdateKeepsExpiry | src/hooks/useFinancialItems.ts:71-79 | no update clears an expiry or blanks a name, institution or product type |
| FinancialItemsHook.ZeroValueIsWritten | src/hooks/useFinancialItems.ts:74 | a value of 0 is written |
| FinancialItemsHook.EmptySubcategoryClears | src/hooks/useFinancialItems.ts:76 | a subcategory of `''` clears it |
| FinancialItemsHook.UpdateIdempotent | src/hooks/useFinancialItems.ts:66-91 | applying the same update twice equals applying it once |
| DocumentsHook.RowToDocument | src/hooks/useDocuments.ts:20-27 | the document read from a row; an empty or missing size reads `0 MB` |
| DocumentsHook.ReadDocuments | src/hooks/useDocuments.ts:11-27 | nothing without a user id; otherwise one document per row |
| DocumentsHook.Extension | src/hooks/useDocuments.ts:41 | the text after the last dot, or the whole name without a dot |
| DocumentsHook.UploadPathsDiffer | src/hooks/useDocuments.ts:81-82 | paths built at different clock readings differ |
| DocumentsHook.OrphanedUpload | src/hooks/useDocuments.ts:78-86 | when the clock moved between upload and clean-up, the uploaded file stays in storage |
| DocumentsHook.OrphanedUploadExample | src/hooks/useDocuments.ts:78-86 | the concrete case of `a.pdf` by user `u1` at 1000 and 1001 |
| DocumentsHook.DocumentStore.AddDocument | src/hooks/useDocuments.ts:33-88 | as written: no user fails; a failed upload fails; a failed insert fails after removing the path of the second clock reading; success appends the row |
| DocumentsHook.DocumentStore.AddDocumentCompensated | src/hooks/useDocuments.ts:33-88 | corrected: every failure leaves the table alone and the uploaded file removed |
| AddItemModal.CategoryLabel | src/components/modals/AddItemModal.tsx:11-16 | a label exactly for the four item categories |
| AddItemModal.FormItem | src/components/modals/AddItemModal.tsx:45-54 | the item a complete form adds: default product type, parsed value or 0, active, today, no expiry or subcategory |
| AddItemModal.AddItemModal.HandleSubmit | src/components/modals/AddItemModal.tsx:30-59 | an incomplete form changes nothing; a complete one appends its item to the app state, resets the form and closes the modal |
| UploadDocumentModal.DetectCategory | src/components/modals/UploadDocumentModal.tsx:27-38 | insurance words first, then document words, then asset words; otherwise the category stays |
| UploadDocumentModal.DocumentName | src/components/modals/UploadDocumentModal.tsx:59 | the name without its extension, exactly when it has one |
| UploadDocumentModal.DocumentType | src/components/modals/UploadDocumentModal.tsx:60 | the upper-cased text after the last dot, or `FILE` when it is empty; never empty |
| UploadDocumentModal.SplitNameAndType | src/components/modals/UploadDocumentModal.tsx:59-60 | `name.ext` is called `name`, of type `EXT` |
| UploadDocumentModal.NoDotName | src/components/modals/UploadDocumentModal.tsx:59-60 | a name without a dot keeps its name, and its type is the whole name upper-cased |
| UploadDocumentModal.UploadDocumentModal.HandleFileSelect | src/components/modals/UploadDocumentModal.tsx:27-38 | the file is chosen and the category guessed from its name |
| UploadDocumentModal.UploadDocumentModal.HandleSubmit | src/components/modals/UploadDocumentModal.tsx:47-82 | without a file or category nothing changes; a failure changes nothing; otherwise the document is added, the modal reset and closed |
| DocumentsPage.CategoryLabel | src/pages/sections/DocumentsPage.tsx:23-32 | the five known categories get their labels; anything else is shown as it is |
| DocumentsPage.CategoryLabelsDistinct | src/pages/sections/DocumentsPage.tsx:23-32 | different known categories have different labels |
| DocumentsPage.Shown | src/pages/sections/DocumentsPage.tsx:35-45 | every document for an empty search; otherwise exactly the matching ones, in order, each as often as it occurs |
| DocumentsPage.LabelSearchFindsCategory | src/pages/sections/DocumentsPage.tsx:35-45 | searching a category's label lists every document of that category |
| DocumentsPage.DocumentsPage.FilterEffect | src/pages/sections/DocumentsPage.tsx:35-45 | the stored list is `Shown` of the documents for the current query |
| SearchModal.DisplayItems | src/components/modals/SearchModal.tsx:25 | the first min(5, n) items for an empty query, the search results otherwise |
| SearchModal.NoResultsWhen | src/components/modals/SearchModal.tsx:58-96 | never with an empty query; with a non-empty one exactly when no item matches |
| SearchModal.SearchModal.Dismiss | src/components/modals/SearchModal.tsx:72 | closes the modal and clears the query, nothing else |
| MobileMenu.AfterItemClick | src/components/modals/MobileMenu.tsx:24-33 | chat and settings open their panel and keep the section; any other id becomes the section; the menu closes |
| MobileMenu.MenuEntriesNavigate | src/components/modals/MobileMenu.tsx:5-33 | each upper entry shows its own section without opening a panel |
| MobileMenu.ItemClickIdempotent | src/components/modals/MobileMenu.tsx:24-33 | choosing the same entry twice equals choosing it once |
| MobileMenu.MobileMenu.HandleItemClick | src/components/modals/MobileMenu.tsx:24-33 | the app state becomes `AfterItemClick` of the old one |
| MobileMenu.MobileMenu.Close | src/components/modals/MobileMenu.tsx:45 | closes the menu, nothing else |
| SharingModal.PermissionLabel | src/components/modals/SharingModal.tsx:201-210 | a non-empty label exactly for admin, editor and viewer |
| SharingModal.PermissionLabelsDistinct | src/components/modals/SharingModal.tsx:201-210 | different levels have different labels |
| SharingModal.SharedUserOf | src/components/modals/SharingModal.tsx:47-52 | the email or `''`; the name is the full name, otherwise that email |
| SharingModal.NamedUnlessBothMissing | src/components/modals/SharingModal.tsx:50 | the name is empty exactly when neither a full name nor an email is given |
| SharingModal.SharedUsers | src/components/modals/SharingModal.tsx:47-52 | one shared user per loaded row, or none when no data came back |
| SharingModal.SharingModal.HandleAddUser | src/components/modals/SharingModal.tsx:65-132 | no user or email does nothing; a found or unique-violating invitation is refused; another error is shown; success stores the lower-cased email, resets the form and asks for a reload |
| SharingModal.SharingModal.LoadSharedUsers | src/components/modals/SharingModal.tsx:32-63 | without a user nothing; a failed query keeps the list; otherwise the list is the transformed rows |
| SharingModal.InviteOnce | src/components/modals/SharingModal.tsx:73-97 | after a first invitation, inviting the same email again in any letter case is found and refused |
| SharingModal.OtherInvitationIrrelevant | src/components/modals/SharingModal.tsx:73-78 | an invitation for another owner or email does not change what the lookup finds |

## Left out

- Supabase, the Green API WhatsApp client and the OpenAI client are not part of this model. Their answers are parameters, and the tables and storage they change are class fields.
- The OpenAI request itself (the prompt text, model name and sampling settings) is left out. Only what is done with its answer is modelled.
- React scheduling is left out: re-render timing, `useEffect` re-runs and the query cache invalidation. The chat's 800 ms timer is a separate `DeliverReply` step.
- The render-time state update that opens the sharing modal from settings is left out, and so are its close handlers.
- Floating-point rounding is left out: amounts are exact reals.
- `toLocaleString` and the date formatting are parameters. Document sizes arrive already printed in megabytes.
- Letter case is folded for ASCII only.
- The database's row order (`order by created_at desc`) is taken as given: the rows are passed in that order.
- Deleting items and documents, removing or changing a shared user's permission, and the icon and colour helpers are not part of this model.
- The WhatsApp reply texts are tags carrying their data (`WhatsAppWebhook.Reply`), not the literal texts.
- WhatsAppWebhook.Webhook.HandleWhatsAppWebhook: the user directory call and the insert are assumed not to throw outside the insert's error result.
- UploadDocumentModal.UploadDocumentModal.HandleSubmit: the provider's `addDocument` never throws, so the failure branch is reached only through the `failure` parameter.
- SharingModal.SharingModal.HandleAddUser: a failing lookup is treated like one that finds nothing, as `.single()` does. The reload is a returned flag rather than the asynchronous call.
- ReminderService.SendAllReminders: the chat id is not modelled, and each send's outcome is the `delivered` parameter.
- ReminderService.DaysUntilExpiry: the count is a difference of day numbers. The time of day that `Math.ceil` of the millisecond difference depends on is not modelled.
- WhatsAppWebhook.FindUser: the directory is taken to be the list of users. As written, `listUsers()` puts an object `{ users, aud }` under `data`, which has no `find`; that call would throw and the handler would answer 500 without a reply. The model follows the evident intent.
- ReminderService.CategoryLabel: a category named after an `Object.prototype` member ("constructor", "toString") is assumed not to occur. `categoryNames[c] || c` would return the inherited function, and the reminder would print its source text.
- DocumentsPage.CategoryLabel: a category named after an `Object.prototype` member is assumed not to occur. `labels[c] || c` would return the inherited function, and the search would throw when it lower-cases it (DocumentsPage.tsx:39).
- Text.ParseFloat: only plain decimal numerals are read. Exponents ("1e5") and "Infinity" are not, so `FinancialItemsHook.ValueOf` and `AddItemModal.FormItem` differ from `parseFloat` and the number input on those texts.
- SectionStats.SubcategoryStats: group names are assumed not to look like array indices ("3", "12"), which `Object.entries` would list first in ascending order, and not to be names inherited from `Object.prototype` ("toString", "constructor"), whose groups JavaScript loses because `!acc[subcat]` is false for them.

## Findings

| source | as written | input that shows it | evidently intended | confidence | as-written member | corrected member |
|---|---|---|---|---|---|---|
| src/hooks/useDocuments.ts:78-86 | the clean-up after a failed insert builds the file path again with a new `Date.now()`, so it removes a different path from the one uploaded | user `u1` uploads `a.pdf` at clock 1000 (path `u1/1000.pdf`), the insert fails and the clean-up runs at 1001, removing `u1/1001.pdf`; `u1/1000.pdf` stays in storage | remove the path that was uploaded | not executed | DocumentsHook.DocumentStore.AddDocument, DocumentsHook.OrphanedUploadExample | DocumentsHook.DocumentStore.AddDocumentCompensated |
| src/services/reminderService.ts:26-63 | the query returns the columns under their table names (`expiry_date`, `user_id`), but `sendReminder` reads `item.expiryDate`, which is undefined; the date is `new Date(undefined)`, printed "Invalid Date", and the day count is `NaN` | a car insurance row expiring 2026-10-20, checked on 2026-10-16: the reminder reads "תאריך חידוש: Invalid Date" and "נותרו NaN ימים" instead of the date and 4 days | alias the columns to the interface's names, so the reminder states the renewal date and the days left | not executed | ReminderService.SendAllReminders, ReminderService.ReminderAsWrittenLosesDate | ReminderService.SendAllRemindersCorrected, ReminderService.ReminderTextMentions |
