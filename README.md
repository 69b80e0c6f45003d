# hub-spot-tickets, modelled in Dafny

A Next.js support portal that embeds the HubSpot chat widget, shows the
signed-in company's tickets and files new tickets through the HubSpot CRM.
This project models the parts of it that decide things:

- **SmartHubSpotChat** (`smart_chat.dfy`): classifies the page's hostname
  (customer workspace, development, anything else), derives the workspace id
  and tenant slug, builds the visitor `identify` payload by splitting the
  user's name, lists the custom context fields and writes the widget
  settings; its render guard and the later re-identification step.
- **HubSpotChatIframe** and **HubSpotChat** (`chat_iframe.dfy`, `chat.dfy`):
  the mount effects that append the loader script only when none is in the
  document, the ready callback, the cleanup that removes the widget, and the
  open-on-show effect. `browser.dfy` holds the shared window globals and the
  proof that the document never holds more than one loader element.
- **ConversationManager** (`conversation_manager.dfy`): reading the
  conversation status from `localStorage`, the confirmed reset, the relative
  "last activity" label and the banner guard.
- **MyTickets** (`my_tickets.dfy`): the stage colour and label tables, how a
  fetch's outcome becomes component state, and which of the four views is
  shown.
- **The create-ticket route** (`create_ticket.dfy`): the ticket and contact
  properties, how the contact id is settled (created, found after a
  conflict, or none), the association guard and the response.

`js.dfy` models the JavaScript semantics these rely on: truthiness of
optional strings, `split`/`join` on one character, `parseInt(s, 10)`, the
decimal text of a number and the time clip of `new Date(n)`.

React state is a class whose fields the effect methods assign; `window`
globals are fields of `Browser.Window`. The third-party widget API and the
CRM client are not visible: the widget's presence is a field and the calls
made into it are a log; each CRM call's outcome is an input to
`CreateTicketRoute.Post`, and the calls it makes are returned in order.
Build-time environment values (`NEXT_PUBLIC_HUBSPOT_PORTAL_ID`,
`NEXT_PUBLIC_CHATFLOW_SUPPORT`), the page's hostname, the current time and
the user's answer to the confirmation dialog are parameters.

Notes on how the code behaves where its comments or a reader might expect
otherwise; the model follows the code:

- Names are split with `split(' ')`, on each single space only: a tab stays
  inside a piece and a second space starts an empty one, so "Jane  Doe" has
  the last name " Doe".
- The custom context fields are not merged into the inline chat's settings,
  although the comments at components/SmartHubSpotChat.tsx:163 and :167 say
  the settings must be set before the script loads and that the fields are
  merged. The inline chat's mount effect runs after the context effect and
  replaces `hsConversationsSettings` with its own two entries, so the fields
  and the identification email are gone before the loader script runs
  (`SmartHubSpotChat.ContextThenEmbed`).
- The comment at components/SmartHubSpotChat.tsx:65 puts `compound.direct`
  and admin hosts in the no-chat branch, but a hostname that ends in
  `.compound.direct`, such as `admin.compound.direct`, is caught by the first
  test and counts as a customer workspace; only the bare apex
  `compound.direct` and other domains hide the chat.

## Model

| member | source | states |
|---|---|---|
| Js.SplitCount | components/SmartHubSpotChat.tsx:94 | splitting on a character gives more than one piece exactly when the character occurs |
| Js.Split | components/SmartHubSpotChat.tsx:93 | `split` on one character always gives at least one piece; what the pieces are is stated by `Js.SplitCount`, `Js.SplitPiecesHaveNoSeparator` and `Js.JoinSplit` |
| Js.Join | components/SmartHubSpotChat.tsx:95 | `join` with one character; `Js.JoinSplit` states that it undoes `split`, and `Js.FirstAndRest` that the first piece, the separator and the joined rest rebuild the string |
| Js.SplitPiecesHaveNoSeparator | components/SmartHubSpotChat.tsx:93 | no piece of a split contains the separator |
| Js.JoinSplit | components/SmartHubSpotChat.tsx:95 | joining the pieces of a split with the same character gives the original string back |
| Js.FirstAndRest | app/api/create-ticket/route.ts:32-33 | the first piece has no separator; with a separator present, first piece + separator + the rest joined is the string; without one, the first piece is the whole string and the rest is empty |
| Js.FirstAndRestOf | components/SmartHubSpotChat.tsx:93-95 | conversely, a separator-free word, a separator and any rest split back into exactly that word and that rest |
| Js.FirstPiece | app/api/create-ticket/route.ts:32 | `split(sep)[0]` (also components/SmartHubSpotChat.tsx:93 and :198); stated by `Js.FirstAndRest`, `Js.FirstAndRestOf` and `Js.FirstPieceIsPrefix` |
| Js.RestPieces | app/api/create-ticket/route.ts:33 | `split(sep).slice(1).join(sep)` (also components/SmartHubSpotChat.tsx:95 and :202); stated by `Js.FirstAndRest` and `Js.FirstAndRestOf` |
| Js.FirstPieceIsPrefix | components/SmartHubSpotChat.tsx:47 | the first label is a prefix of the hostname, followed by a dot when shorter |
| Js.FirstPieceKeepsPrefix | components/SmartHubSpotChat.tsx:73 | a dot-free prefix of the hostname (such as `cd-`) is kept by its first label |
| Js.NatToString | components/ConversationManager.tsx:62 | the decimal text of a count is non-empty and all digits |
| Js.DigitsValueOfNatToString | components/ConversationManager.tsx:62 | the decimal text of a number has that number as its value |
| Js.ParseIntOfDigitsThen | components/ConversationManager.tsx:17 | `parseInt` of digits followed by anything not starting with a digit is their value |
| Js.ParseInt | components/ConversationManager.tsx:17 | `parseInt(s, 10)`: leading white space, an optional sign, the longest digit run, NaN without digits; its behaviour is stated by `Js.ParseIntOfDigitsThen`, `Js.ParseIntOfNatToString` and `ConversationManager.ParseIntOfWord` |
| Js.ParseIntOfNatToString | components/ConversationManager.tsx:17 | `parseInt` of a number's decimal text, followed by anything not starting with a digit, is that number |
| Js.DateOf | components/ConversationManager.tsx:17 | `new Date(n)` is a valid date holding `n` exactly when `n` is a number within ±8.64e15 ms, and Invalid Date otherwise |
| Browser.Window.constructor | components/SmartHubSpotChat.tsx:6-17 | a fresh page has none of the chat globals set, no API calls made, and the given API, document and storage |
| Browser.Window.RemoveWidgetIfPresent | components/HubSpotChatIframe.tsx:48-56 | the widget is removed exactly when it exists; a failure is swallowed, so nothing else happens |
| Browser.Window.RunLoadWidgetCallback | components/HubSpotChatIframe.tsx:40-44 | the ready callback loads the widget exactly when it exists |
| Browser.LoaderScript | components/HubSpotChatIframe.tsx:26-30 | the loader is an async, deferred script with id `hs-script-loader` and src `//js.hs-scripts.com/<portalId>.js` |
| Browser.CountIdPositiveIffPresent | components/HubSpotChatIframe.tsx:33-34 | `getElementById` finds an element exactly when at least one element carries the id |
| Browser.HasElementWithId | components/HubSpotChatIframe.tsx:33 | `document.getElementById(id)` finds an element (also components/HubSpotChat.tsx:27); related to the id count by `Browser.CountIdPositiveIffPresent` |
| Browser.CountIdAppend | components/HubSpotChatIframe.tsx:35 | appending an element adds one to the count of its id and changes no other count |
| Browser.AppendLoaderIfAbsent | components/HubSpotChatIframe.tsx:33-36 | the append-if-absent of the loader script (also components/HubSpotChat.tsx:27-30); its behaviour is stated by `Browser.AppendLoaderKeepsOne`, `Browser.AppendLoaderIdempotent` and `Browser.MountAllKeepsOneLoader` |
| Browser.AppendLoaderKeepsOne | components/HubSpotChatIframe.tsx:33-36 | from at most one loader element, a mount leaves exactly one, and leaves the document as it was when one existed |
| Browser.AppendLoaderIdempotent | components/HubSpotChat.tsx:27-30 | a second mount, with any portal id, changes nothing |
| Browser.MountAllKeepsOneLoader | components/HubSpotChatIframe.tsx:33-36 | after any number of mounts there is at most one loader element, exactly one once anything mounted, and it is the first mount's |
| HubSpotChatIframe.InlineEmbedSettings | components/HubSpotChatIframe.tsx:20-23 | the settings are exactly `loadImmediately = true` and `inlineEmbedSelector = "#hubspot-chat-container"` |
| HubSpotChatIframe.Render | components/HubSpotChatIframe.tsx:59-67 | the container, with id `hubspot-chat-container`, is rendered exactly when `show` holds |
| HubSpotChatIframe.Mount | components/HubSpotChatIframe.tsx:16-46 | without `show` or a mounted container nothing changes; otherwise the settings are set, the loader appended only if absent, the ready list replaced by the one callback, and at most one loader element remains |
| HubSpotChatIframe.Cleanup | components/HubSpotChatIframe.tsx:48-56 | unmounting removes the widget exactly when it exists |
| HubSpotChat.Mount | components/HubSpotChat.tsx:16-31 | without `show` nothing changes; otherwise the loader is appended only if absent and at most one loader element remains |
| HubSpotChat.Cleanup | components/HubSpotChat.tsx:33-41 | unmounting removes the widget exactly when it exists |
| HubSpotChat.OpenOnShow | components/HubSpotChat.tsx:44-52 | the widget is opened exactly when `show` holds and the widget exists |
| SmartHubSpotChat.ClassifyHost | components/SmartHubSpotChat.tsx:54-69 | chat shows exactly outside the "other" environment; there the chatflow is empty, elsewhere it is the support chatflow or empty |
| SmartHubSpotChat.ClassificationRules | components/SmartHubSpotChat.tsx:54-69 | customer workspace iff the host starts with `cd-` or ends with `.compound.direct`; development iff not that and the host is `localhost` or starts with `localhost:`; chat shows iff one of the four tests holds |
| SmartHubSpotChat.WorkspaceHostExamples | components/SmartHubSpotChat.tsx:54-58 | `cd-acme.example.com` and `cd-localhost` are customer workspaces |
| SmartHubSpotChat.CompoundDirectHostExamples | components/SmartHubSpotChat.tsx:54-58 | `acme.compound.direct` and `admin.compound.direct` are customer workspaces |
| SmartHubSpotChat.DevelopmentHostExamples | components/SmartHubSpotChat.tsx:59-63 | `localhost` and `localhost:3000` are development |
| SmartHubSpotChat.HiddenHostExamples | components/SmartHubSpotChat.tsx:64-69 | the bare apex `compound.direct`, the empty host and `localhost.example.com` hide the chat with no chatflow |
| SmartHubSpotChat.FirstLabel | components/SmartHubSpotChat.tsx:47 | `hostname.split('.')[0]`; `Js.FirstPieceIsPrefix` states that it is the prefix of the hostname up to its first dot |
| SmartHubSpotChat.DetectWorkspaceId | components/SmartHubSpotChat.tsx:72-73 | the `workspaceId` prop, else the first label of a `cd-` host, else empty; stated by `SmartHubSpotChat.DetectedWorkspaceId` |
| SmartHubSpotChat.TenantSlug | components/SmartHubSpotChat.tsx:79 | the detected workspace id when truthy, else the subdomain; stated by `SmartHubSpotChat.TenantSlugIsFirstLabelOrProp` |
| SmartHubSpotChat.DetectedWorkspaceId | components/SmartHubSpotChat.tsx:72-73 | a truthy `workspaceId` prop wins; else a `cd-` host gives its whole first label (keeping `cd-`, without a dot); else empty |
| SmartHubSpotChat.TenantSlugIsFirstLabelOrProp | components/SmartHubSpotChat.tsx:78-81 | the tenant slug is the prop when given and the host's first label otherwise, and is empty exactly when there is no prop and the host is empty or starts with a dot |
| SmartHubSpotChat.IdentifyPayload | components/SmartHubSpotChat.tsx:87-106 | a first name exactly when the name is truthy, a last name exactly when it also contains a space; first name + " " + last name is the name; the tenant's slug and host; the company only when truthy |
| SmartHubSpotChat.NameSplitThreeTokens | components/SmartHubSpotChat.tsx:93-96 | "Mary Jane Watson" gives first name "Mary" and last name "Jane Watson" |
| SmartHubSpotChat.NameSplitOneToken | components/SmartHubSpotChat.tsx:93-96 | "Madonna" gives first name "Madonna" and no last name; the general rule for a name without a space is in `SmartHubSpotChat.IdentifyPayload` |
| SmartHubSpotChat.ReIdentifyPayload | components/SmartHubSpotChat.tsx:196-207 | the re-identification always has a first name, a last name exactly when the name has a space, the same round trip, no workspace context, the company only when truthy |
| SmartHubSpotChat.IdentifyCommands | components/SmartHubSpotChat.tsx:87-113 | with a truthy email, `identify` then `trackPageView` are queued; without one, nothing |
| SmartHubSpotChat.QueueOrEmpty | components/SmartHubSpotChat.tsx:84 | the existing `_hsq` queue, or an empty one when there is none; its use is stated by `SmartHubSpotChat.ConfigureWindow` and `SmartHubSpotChat.SmartHubSpotChatComponent.ContextEffect` (an existing queue is kept and extended) |
| SmartHubSpotChat.AppendOptionalInOrder | components/SmartHubSpotChat.tsx:134-160 | pushing a later optional field keeps the field names in their fixed order |
| SmartHubSpotChat.CustomFields | components/SmartHubSpotChat.tsx:123-160 | the custom context fields in push order; their order and values are stated by `SmartHubSpotChat.CustomFieldsOrder` and `SmartHubSpotChat.CustomFieldsValues` |
| SmartHubSpotChat.CustomFieldsOrder | components/SmartHubSpotChat.tsx:123-160 | the list starts with `environment` and `hostname`, and the optional names follow in the fixed order `workspace_id`, `company_id`, `user_name`, `request_type`, so none repeats |
| SmartHubSpotChat.CustomFieldsValues | components/SmartHubSpotChat.tsx:134-160 | each of the four optional fields is listed exactly when its value is non-empty, with that value |
| SmartHubSpotChat.FoldFields | components/SmartHubSpotChat.tsx:168-171 | the `reduce` that writes each field into the record; stated by `SmartHubSpotChat.FoldFieldsContent` |
| SmartHubSpotChat.FoldFieldsContent | components/SmartHubSpotChat.tsx:168-171 | reducing distinct-named fields into a record adds exactly their names with their values and keeps every other entry |
| SmartHubSpotChat.WidgetSettings | components/SmartHubSpotChat.tsx:164-172 | the settings object, the two fixed keys spread with the folded fields; stated by `SmartHubSpotChat.WidgetSettingsContent` |
| SmartHubSpotChat.EmailValue | components/SmartHubSpotChat.tsx:166 | `identificationEmail` holds the email, or `undefined` when there is none; stated by `SmartHubSpotChat.EffectSettingsFixedEntries` |
| SmartHubSpotChat.EffectSettings | components/SmartHubSpotChat.tsx:116-172 | the settings the context effect leaves; stated by `SmartHubSpotChat.EffectSettingsFixedEntries` and `SmartHubSpotChat.EffectSettingsOptionalEntries` |
| SmartHubSpotChat.WidgetSettingsContent | components/SmartHubSpotChat.tsx:164-172 | the settings object holds `loadImmediately`, `identificationEmail` and one entry per custom field with its value, nothing more |
| SmartHubSpotChat.EffectSettingsFixedEntries | components/SmartHubSpotChat.tsx:116-172 | the final settings hold `loadImmediately = true`, the identification email, the environment and the hostname, no key beyond those and the field names, and no `identificationToken` |
| SmartHubSpotChat.EffectSettingsOptionalEntries | components/SmartHubSpotChat.tsx:134-172 | each optional field is in the final settings exactly when its value is truthy, holding that value |
| SmartHubSpotChat.OptionalFieldInSettings | components/SmartHubSpotChat.tsx:134-160 | an optional field is in the settings exactly when its value is non-empty, holding that value |
| SmartHubSpotChat.FieldValueMeansListed | components/SmartHubSpotChat.tsx:123-160 | in an ordered field list a name has a value exactly when it is listed, and it is that field's value |
| SmartHubSpotChat.SmartHubSpotChatComponent.constructor | components/SmartHubSpotChat.tsx:36-40 | the initial config has an empty portal and chatflow and does not show |
| SmartHubSpotChat.SmartHubSpotChatComponent.Render | components/SmartHubSpotChat.tsx:223-227 | the inline chat renders exactly when the config says show and has a portal id, passing that id and `show` |
| SmartHubSpotChat.ConfigureWindow | components/SmartHubSpotChat.tsx:76-173 | the tenant is the detected workspace id (or the first label) with the hostname; the identification is appended to the existing or new queue; the settings end as the fixed entries plus the custom fields |
| SmartHubSpotChat.SmartHubSpotChatComponent.ContextEffect | components/SmartHubSpotChat.tsx:42-180 | without `show` nothing changes; otherwise the config records the classification; when chat shows, the tenant is set, the identification is appended to the existing queue, and the settings are the final settings; otherwise the window is untouched |
| SmartHubSpotChat.SmartHubSpotChatComponent.ReIdentify | components/SmartHubSpotChat.tsx:184-212 | with `show`, an email and a name, and only once the API and queue exist, one `identify` without workspace context is appended; otherwise nothing changes |
| SmartHubSpotChat.ContextThenEmbed | components/SmartHubSpotChat.tsx:42-227 | the config records the classification; when chat shows, the tenant is set and the identification appended to `_hsq`, otherwise tenant and queue are untouched; once the inline chat renders, its mount replaces the context settings with its own, appends the loader if absent and sets the ready callback; when it does not render, the settings are the context effect's (or untouched) and document and ready list are unchanged |
| ConversationManager.ReadStatus | components/ConversationManager.tsx:10-21 | active exactly when the key holds `"true"`; a last activity exactly when the activity key holds a non-empty string, and then the Date of its `parseInt` |
| ConversationManager.ResetStorage | components/ConversationManager.tsx:41-42 | a reset removes the two keys and keeps every other entry |
| ConversationManager.ReadAfterReset | components/ConversationManager.tsx:41-44 | after a reset storage reads as inactive with no last activity, matching the cleared state |
| ConversationManager.ReadStoredActivity | components/ConversationManager.tsx:13-17 | an activity time stored as its decimal text reads back as that time |
| ConversationManager.ReadOutOfRangeActivity | components/ConversationManager.tsx:17 | a stored time beyond the Date range reads back as Invalid Date |
| ConversationManager.ElapsedMinutesIsFloor | components/ConversationManager.tsx:57-58 | the minute count is the floor of the elapsed milliseconds over 60000 |
| ConversationManager.ElapsedMinutes | components/ConversationManager.tsx:57-58 | the whole minutes since the date; stated by `ConversationManager.ElapsedMinutesIsFloor` |
| ConversationManager.FormatTime | components/ConversationManager.tsx:55-67 | `formatTime`, with "NaN hours ago" for an Invalid Date; its buckets are stated by `ConversationManager.FormatTimeBuckets` and its numbers by `ConversationManager.FormatTimeReadsBack` |
| ConversationManager.FormatTimeBuckets | components/ConversationManager.tsx:55-67 | under a minute (future dates included) "just now", one minute singular, 2–59 minutes counted, 60–119 "1 hour ago", from 120 whole hours |
| ConversationManager.FormatTimeReadsBack | components/ConversationManager.tsx:60-66 | reading the label back with `parseInt` gives the minutes below an hour, the whole hours from then on, and NaN for "just now" and for an Invalid Date |
| ConversationManager.ParseIntOfWord | components/ConversationManager.tsx:60 | a label starting with a letter has no leading number |
| ConversationManager.FormatTimeJustNowExamples | components/ConversationManager.tsx:60 | a date of now, or one 1 ms ahead of now, is "just now"; every date less than a minute old or in the future is covered by `ConversationManager.FormatTimeBuckets` |
| ConversationManager.FormatTimeMinuteExamples | components/ConversationManager.tsx:61-62 | 1 and 59 minutes ago are "1 minute ago" and "59 minutes ago" |
| ConversationManager.FormatTimeHourExamples | components/ConversationManager.tsx:64-66 | 60 and 125 minutes ago are "1 hour ago" and "2 hours ago" |
| ConversationManager.ConversationManagerComponent.constructor | components/ConversationManager.tsx:6-7 | the component starts inactive with no last activity |
| ConversationManager.ConversationManagerComponent.CheckConversationStatus | components/ConversationManager.tsx:10-21 | the state becomes what storage says |
| ConversationManager.ConversationManagerComponent.HandleResetConversation | components/ConversationManager.tsx:32-49 | unconfirmed, nothing changes; confirmed, a full widget reset when the API exists; when that unguarded `clear` throws, storage and state stay as they were; otherwise exactly the two keys are removed and the state is cleared, agreeing with storage |
| ConversationManager.ConversationManagerComponent.Render | components/ConversationManager.tsx:51-95 | a banner exactly when active; it carries the relative label exactly when a last activity is known |
| MyTickets.StatusColorTable | components/MyTickets.tsx:61-70 | stages 1, 2, 3 are blue, yellow, green; a stage gets the gray class exactly when it is none of those, '4' included |
| MyTickets.StatusColor | components/MyTickets.tsx:61-70 | `getStatusColor`; stated by `MyTickets.StatusColorTable` and `MyTickets.StatusColorSame` |
| MyTickets.StatusColorSame | components/MyTickets.tsx:63-69 | two stages share a colour exactly when they are equal or both outside 1–3 |
| MyTickets.StatusLabelTable | components/MyTickets.tsx:72-81 | stages 1–4 are "New", "In Progress", "Resolved", "Closed"; any other stage is "Stage " + the stage |
| MyTickets.StatusLabel | components/MyTickets.tsx:72-81 | `getStatusLabel`; stated by `MyTickets.StatusLabelTable`, `MyTickets.StageOfStatusLabel` and `MyTickets.StatusLabelInjective` |
| MyTickets.StageOfStatusLabel | components/MyTickets.tsx:74-80 | every label reads back as its own stage |
| MyTickets.StatusLabelInjective | components/MyTickets.tsx:72-81 | different stages never share a label |
| MyTickets.AfterFetch | components/MyTickets.tsx:36-45 | loading ends; success sets the tickets (or none) and keeps the error; a non-ok response sets the server's error or "Failed to fetch tickets"; a throw sets "Failed to load tickets" |
| MyTickets.TicketsUrl | components/MyTickets.tsx:33 | the `/api/get-tickets?companyId=<id>` address; requested by `MyTickets.MyTicketsComponent.FetchTickets` exactly when the id is non-empty |
| MyTickets.CardOf | components/MyTickets.tsx:114-145 | a card shows the subject, the stage's colour and label, the content and priority only when truthy |
| MyTickets.SelectView | components/MyTickets.tsx:83-150 | spinner iff loading; else the error iff set; else the empty notice iff no tickets; else one card per ticket in order |
| MyTickets.ViewAfterFetch | components/MyTickets.tsx:36-45 | after a fetch the spinner is gone; a throw shows its message; a failed response an error; a success shows the tickets unless an earlier error is still set |
| MyTickets.MyTicketsComponent.constructor | components/MyTickets.tsx:23-25 | the list starts empty, loading, with no error |
| MyTickets.MyTicketsComponent.FetchTickets | components/MyTickets.tsx:27-49 | nothing is requested or changed for an empty company id; otherwise the tickets address is requested and the state is the outcome's |
| MyTickets.EmptyCompanyKeepsSpinner | components/MyTickets.tsx:28 | the initial state (no tickets, loading, no error) shows the spinner; that an empty company id leaves this state unchanged is `MyTickets.MyTicketsComponent.FetchTickets` (`companyId == "" ==> unchanged(this)`) |
| CreateTicketRoute.TicketPropertiesOf | app/api/create-ticket/route.ts:14-19 | the subject is "Support Request from " + the name (which reads back from it), the content the issue, stage '1', pipeline '0' |
| CreateTicketRoute.SubjectIdentifiesCustomer | app/api/create-ticket/route.ts:15 | different customers get different subjects |
| CreateTicketRoute.ContactPropertiesOf | app/api/create-ticket/route.ts:30-36 | the request's email and phone; a space-free first name; with a space, first + " " + last is the name; without, the first name is the name and the last name empty |
| CreateTicketRoute.ContactNameSplit | app/api/create-ticket/route.ts:32-33 | a name `first + " " + rest` with a space-free first word gives exactly those as first and last name |
| CreateTicketRoute.ServerError | app/api/create-ticket/route.ts:84-90 | a failure answers 500 with the error's message, or "Failed to create ticket" when it has none |
| CreateTicketRoute.ResolveContact | app/api/create-ticket/route.ts:28-58 | the contact id the inner try/catch settles on, or the search error that escapes; stated by `CreateTicketRoute.ResolveContactRule` |
| CreateTicketRoute.ResolveContactRule | app/api/create-ticket/route.ts:28-58 | the created contact's id; after a 409, the first hit's id or none; after any other error, none; only a failed search escapes |
| CreateTicketRoute.SearchesAfter | app/api/create-ticket/route.ts:39-41 | the search runs exactly when contact creation threw with code 409; used by `CreateTicketRoute.ResolveContactRule` and `CreateTicketRoute.ContactCalls` |
| CreateTicketRoute.ContactCalls | app/api/create-ticket/route.ts:28-58 | the contact step calls contact creation first, then the email search exactly when creation hit a conflict, and nothing more |
| CreateTicketRoute.FindContact | app/api/create-ticket/route.ts:28-58 | the contact step settles on the id the rule gives, creating the contact and searching by email only after a conflict |
| CreateTicketRoute.AssociationOf | app/api/create-ticket/route.ts:62-80 | the association goes from the ticket to the contact, HubSpot-defined, type 16 |
| CreateTicketRoute.Associates | app/api/create-ticket/route.ts:61 | the `if (contactId)` test: the contact step settled on a truthy id; used by `CreateTicketRoute.AssociationCalls` and `CreateTicketRoute.AssociationRule` |
| CreateTicketRoute.AssociationCalls | app/api/create-ticket/route.ts:61-81 | one association call, ticket to the settled contact, exactly when a non-empty contact id was settled on; none otherwise |
| CreateTicketRoute.ResponseAfterTicket | app/api/create-ticket/route.ts:61-90 | the answer is 200 or 500; 500 exactly when a search failure escaped or the association failed, with that error's message; 200 carries `success` and the ticket id |
| CreateTicketRoute.LinkContact | app/api/create-ticket/route.ts:28-83 | after the ticket exists: the contact step, the association only for a truthy contact id, and 200 with the ticket id unless the search or the association failed |
| CreateTicketRoute.LinkContactCreatesNoTicket | app/api/create-ticket/route.ts:28-81 | no call after the ticket's creation creates a ticket |
| CreateTicketRoute.Post | app/api/create-ticket/route.ts:10-91 | the answer is 200 or 500; the ticket is created first and once; contact creation follows, the search only after a 409, the association exactly when a truthy contact id was found; 200 carries `success` and the ticket id; every escaping failure is a 500 with its message |
| CreateTicketRoute.AssociationRule | app/api/create-ticket/route.ts:61-81 | the association is made exactly when the created contact's id, or after a conflict the first hit's id, is non-empty; any other contact error is swallowed and the request succeeds |

## Left out

- The get-tickets route, the ticket form, the page and the layout are not part of this model.
- Timers: the five-second status poll and the one-second retry of the re-identification are not modelled; `CheckConversationStatus` and `ReIdentify` model one run each.
- `window.location.reload()` after a reset, `console` output and the `confirm` dialog (its answer is a parameter) are not modelled.
- `formatDate` (locale date formatting) is not modelled; a card carries the raw creation date.
- The idle timeout and event subscriptions of the widget are not part of this code.
- HubSpotChat renders nothing, so it has no render member.
- The lookup tables in MyTickets are plain records, so a stage such as `constructor` would find an inherited property; the model treats only the four listed stages as present.
- Numbers: `parseInt` digits beyond 2^53 lose precision in JavaScript; the model reads them exactly.
- HubSpotChatIframe.Mount: the contract gives only the final settings, not that they are written before the script element is appended; the loader script is async and runs only after the effect has completed, so it sees only those final settings.
- `ClassifyHost`: a hostname never carries a port in the browser, so the `localhost:` test is stated but no real page reaches it.
- `CreateTicketRoute.Post`: the request fields are assumed to be strings; a missing `customerName` (which would make the split throw inside the contact step and be swallowed) is not modelled, nor are thrown values that are not error objects.
- Later re-runs of the context effect after the inline chat has mounted (when a prop changes) are not modelled as a sequence; each effect is modelled on its own.
