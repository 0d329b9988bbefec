# asad.to live chat — a Dafny model of the relay and the dashboard logic

asad.to is a live-chat product. Website visitors talk to support agents through a Node.js relay. The relay stores conversations and messages in MySQL and keeps two in-memory registries of connected sockets (`onlineVisitors`, `onlineAgents`). A keyword bot answers common questions after a one-second delay. Unmuted visitor messages also trigger an e-mail alert and a WhatsApp deep link. A React dashboard shows the inbox, response-time and volume reports, quick-reply macros, a contact list and a role-filtered side menu.

This project models:

- **Relay** (`relay.dfy`). A class whose fields are:
  - the two registries;
  - the socket-to-conversation bindings;
  - the `conversations` and `messages` tables;
  - the queue of armed bot timers;
  - a log of what the relay emits.

  Its methods are the socket handlers (`register_visitor`, `register_agent`, `visitor_message`, `agent_message`, `typing`, `disconnect`), the bot timer callback and the REST mute, read and unread endpoints. Each method states its whole new state and keeps an invariant (`Valid`).
- **Registry** (`registry.dfy`). A JavaScript object keyed by socket id, as an insertion-ordered list of slots. Assignment keeps a key's position, `delete` removes the key, and `Object.keys(..).find` takes the first match.
- **Store** (`store.dfy`). The two tables as sequences. Conversation ids are auto-increment ids starting at 1. It also holds the queries the relay and the endpoints run, and the unread badge.
- **BotResponder** (`bot.dfy`). The keyword table and the keyword loop of `handleBotAction`.
- **Notify** (`notify.dfy`). The "not configured" guards of both notifiers, the mail they would send and the `wa.me` link.
- **Reports** (`reports.dfy`). `formatTime`, the `periodData` loop, `maxCount`, and the 24-hour fill with its maximum.
- **QuickReplies** (`quick_replies.dfy`). The macro page as a class: save, delete, search and the edit form.
- **Contacts** (`contacts.dfy`) and **LeftNav** (`left_nav.dfy`). The contact search with its session label, and the side menu's role filter and active entry.
- **Text**, **Lists** and **Wrappers**. `String.prototype.includes`, ASCII `toLowerCase`, decimal rendering, `Array.prototype.filter`, `Option` and `Result`.

Handlers run one at a time, each to completion. A bot reply that `handleBotAction` arms goes to the end of `timers`. `FireBotTimer` runs the oldest one, because every timer has the same 1000 ms delay. Emits and notifier calls are appended to `outbox`. Clocks, `encodeURIComponent` and the calendar key of each chart bucket are parameters.

Every message row is inserted with the column default `is_read = FALSE`, and only visitor rows are ever marked read (server.js:178). The model stores agent and bot rows unread too. They never reach the badge, because the badge query counts only visitor messages (server.js:157, 166).

## Model

| member | source | states |
|---|---|---|
| Text.ToLower | live-chat-server/server.js:270 | `toLowerCase` keeps the length and lower-cases each character (ASCII letters) |
| Text.NatToStringValue | src/pages/Reports.jsx:323 | the decimal rendering used by the template literals reads back as the same number |
| Text.SplitDigitsOf | src/pages/Reports.jsx:323-326 | a rendered number followed by a non-digit splits back into that number and the rest |
| Lists.FilterSpec | src/pages/QuickReplies.jsx:31 | `filter` keeps exactly the passing elements, in their original order, as a sub-list |
| Lists.FilterCounts | src/pages/QuickReplies.jsx:31 | `filter` keeps each passing value exactly as many times as it occurs, and no failing value |
| Lists.FilterAppend | src/pages/QuickReplies.jsx:28 | filtering a concatenation is concatenating the filters |
| Registry.Put | live-chat-server/server.js:422-427 | `obj[k] = v` grows the registry by one slot exactly when k was absent; k's slot (its old place, or the new last one) holds v; every other slot stays where it was |
| Registry.PutLookup | live-chat-server/server.js:447 | after `obj[k] = v`, k reads v and every other key reads as before |
| Registry.PutKeySet | live-chat-server/server.js:422 | the key set gains exactly k |
| Registry.Delete | live-chat-server/server.js:502-503 | `delete obj[k]` leaves no slot with key k and never grows the object |
| Registry.DeleteKeepsOthers | live-chat-server/server.js:502-503 | every other slot survives, only slots of the object survive, and the survivors keep their order (a sub-list) |
| Registry.DeleteAbsent | live-chat-server/server.js:502-503 | deleting a key that is not there changes nothing |
| Registry.DeleteIdempotent | live-chat-server/server.js:502-503 | a second delete of the same key changes nothing |
| Registry.DeleteLookup | live-chat-server/server.js:502-503 | after the delete k reads as absent and every other key reads as before |
| Registry.DeleteKeepsDistinct | live-chat-server/server.js:502-503 | deleting keeps the keys distinct |
| BotResponder.FirstMatch | live-chat-server/server.js:273-278 | finds the first table entry whose key occurs in the text; earlier keys do not occur; none found means no key occurs |
| BotResponder.MatchKeyword | live-chat-server/server.js:269-279 | the early-exit keyword loop returns the reply of the first matching key, or "" |
| BotResponder.ReplyFor | live-chat-server/server.js:270-279 | the bot answers (a non-empty reply) if and only if some key occurs in the lower-cased text, and the answer is the reply of a key that occurs |
| BotResponder.ReplyIsFirstKey | live-chat-server/server.js:261-277 | the answer belongs to the first matching key in table order |
| BotResponder.PrixBeforeBonjour | live-chat-server/server.js:261-277 | "Bonjour, prix svp" is answered with the price reply, because "prix" precedes "bonjour" |
| Store.FindById | live-chat-server/server.js:188-189 | `WHERE id = ?` finds the first row with that id, or reports that none has it |
| Store.FindByIdSequential | live-chat-server/server.js:434-435 | with auto-increment ids, id c exists if and only if 1 <= c <= row count, at row c - 1 |
| Store.FindOpen | live-chat-server/server.js:430 | `WHERE visitor_id = ? AND status = "open"` finds an open row of that visitor, or none exists |
| Store.FindOpenUnique | live-chat-server/server.js:430-438 | with at most one open conversation per visitor, the lookup returns that conversation |
| Store.History | live-chat-server/server.js:441 | the history holds exactly the messages of that conversation |
| Store.HistoryAppend | live-chat-server/server.js:460 | a new message extends its own conversation's history by exactly itself, in order |
| Store.MarkRead | live-chat-server/server.js:178 | only `is_read` changes, and it becomes true exactly on that conversation's visitor rows |
| Store.MarkReadOnlyVisitorRows | live-chat-server/server.js:178 | agent and bot rows, and other conversations' rows, are untouched |
| Store.MarkReadIdempotent | live-chat-server/server.js:178 | marking twice is marking once |
| Store.ToggleMute | live-chat-server/server.js:186-193 | unknown id gives not-found; otherwise the flag is negated in place and the new flag returned |
| Store.ToggleMuteTwice | live-chat-server/server.js:186-193 | two toggles restore the table and answer the original flag |
| Store.UnreadPositions | live-chat-server/server.js:153-158 | lists every counted message exactly once, newest first |
| Store.UnreadTotalCounts | live-chat-server/server.js:162-167 | `total` is the number of unread visitor messages in unmuted conversations |
| Store.UnreadSummary | live-chat-server/server.js:153-169 | `total` is the number of counted messages; `latest` holds the newest min(10, total) of them, newest first |
| Store.Notifiable | live-chat-server/server.js:155-157 | a message is counted if and only if it is an unread visitor message whose conversation exists and is not muted as the relay reads the flag |
| Store.MutedOrFalse | live-chat-server/server.js:457-458 | an existing conversation reads as its own `is_muted` flag (the first row with that id); a missing conversation reads as unmuted |
| Store.MarkReadClearsBadge | live-chat-server/server.js:157-178 | after mark-read no message of that conversation is counted |
| Store.MarkReadKeepsOthers | live-chat-server/server.js:178 | mark-read does not change whether other conversations' messages are counted |
| Store.MutedNotCounted | live-chat-server/server.js:157 | messages of a muted conversation are never counted |
| Notify.SmtpConfigured | live-chat-server/server.js:28 | an accepted SMTP user is present and non-empty |
| Notify.WhatsAppConfigured | live-chat-server/server.js:59 | an accepted WhatsApp number is present and non-empty |
| Notify.SampleUsersRefused | live-chat-server/server.js:28 | a user containing `@example.com` or `votre-email` anywhere, a missing user and an empty user are refused |
| Notify.SampleNumbersRefused | live-chat-server/server.js:59 | a missing number, an empty number and the sample number 33600000000 are refused |
| Notify.Prefix5 | live-chat-server/server.js:36 | `substring(0, 5)` is the first five characters, or the whole string when shorter |
| Notify.EmailFor | live-chat-server/server.js:27-37 | a mail exists if and only if SMTP_USER is set and not a sample; it goes to NOTIFICATION_EMAIL, the subject ends with the visitor id prefix, and the body quotes the text |
| Notify.WhatsAppFor | live-chat-server/server.js:57-66 | a link exists if and only if a real number is set; it is `https://wa.me/<number>?text=<encoded message>` |
| Notify.WaLinkRoundTrip | live-chat-server/server.js:64-66 | the number and the encoded text are read back from the link |
| Relay.UpdateFirstOf | live-chat-server/server.js:288-291 | keeps the registry's length and keys; with no socket of the visitor nothing changes; otherwise exactly the first socket's entry gets the new bot flag and last message (the agent-reply path at server.js:483-486 makes the same update) |
| Relay.FirstSocketOf | live-chat-server/server.js:288 | finds the first registry entry of a visitor, or reports that none exists |
| Relay.NotificationCalls | live-chat-server/server.js:466-469 | when the conversation is unmuted the e-mail notifier and then the WhatsApp notifier are called, each with the visitor id and text; when it is muted neither is |
| Relay.Relay.constructor | live-chat-server/server.js:83-85 | the relay starts over existing tables, with empty registries and nothing pending |
| Relay.Relay.RegisterVisitor | live-chat-server/server.js:421-443 | entry set with a null last message; reuses the open conversation or creates exactly one; binds it; sends that history; broadcasts the list |
| Relay.Relay.RegisterAgent | live-chat-server/server.js:446-451 | agent entry set; the new socket gets the visitor list; the agent list is broadcast |
| Relay.Relay.HandleBotAction | live-chat-server/server.js:269-281 | a timer with the reply is armed if and only if some key matches; nothing else changes |
| Relay.Relay.VisitorMessage | live-chat-server/server.js:453-476 | an unknown socket changes nothing; otherwise one visitor message, updated entry, broadcasts, notifications unless muted, bot timer |
| Relay.Relay.RecordVisitorMessage | live-chat-server/server.js:454-469 | stores the message, sets the entry's last message, broadcasts, and calls the notifiers only when unmuted (a missing conversation counts as unmuted) |
| Relay.Relay.AgentMessage | live-chat-server/server.js:478-491 | an agent message is stored only when an open conversation exists; the first entry gets bot-inactive; the visitor is always forwarded the text |
| Relay.Relay.MarkSocketOf | live-chat-server/server.js:483-488 | rewrites the visitor's first entry and broadcasts, or does nothing when the visitor is offline |
| Relay.Relay.FireBotTimer | live-chat-server/server.js:281-301 | the oldest timer stores exactly one bot message, marks the first entry bot-active, and emits to the visitor and the agents |
| Relay.Relay.Typing | live-chat-server/server.js:493-499 | the indicator goes to the visitor's room for agents and to the agents otherwise |
| Relay.Relay.Disconnect | live-chat-server/server.js:501-506 | the socket leaves both registries, other entries stay, both lists are broadcast |
| Relay.Relay.ToggleMute | live-chat-server/server.js:186-197 | not-found leaves the table alone; otherwise the row's flag is negated and returned |
| Relay.Relay.MarkRead | live-chat-server/server.js:176-183 | the messages table becomes its mark-read image |
| Relay.Relay.UnreadNotifications | live-chat-server/server.js:151-173 | at most 10 counted messages and the exact count of all of them; nothing changes |
| Relay.TwoTabs | live-chat-server/server.js:421-440 | two sockets of one visitor are bound to the same conversation |
| Relay.PriceQuestion | live-chat-server/server.js:453-471 | a price question stores the visitor message, then the bot's price reply in the same conversation once the timer fires |
| Reports.FormatTime | src/pages/Reports.jsx:321-327 | the label is `---` if and only if the value is missing or non-positive |
| Reports.FormatTimeShape | src/pages/Reports.jsx:323-326 | `<s>s` under a minute, `<m>m <s>s` with leftover seconds, `<m> min` on whole minutes |
| Reports.FormatTimeRoundTrip | src/pages/Reports.jsx:321-327 | every positive duration is read back from its label, so different durations get different labels |
| Reports.Labelled | src/pages/Reports.jsx:113-122 | a monthly chart labels a bucket exactly when it is a multiple of 3 units before today; the 7-day chart labels every bucket; any other daily chart ("30d") labels exactly the multiples of 5 |
| Reports.BucketCount | src/pages/Reports.jsx:101 | the bucket count is one of 7, 30, 12 and 36 |
| Reports.FindDay | src/pages/Reports.jsx:108 | `data.find` by day key finds the first matching row, or none matches |
| Reports.BucketFor | src/pages/Reports.jsx:108-128 | a bucket takes the first matching row's counts, falsy counts giving 0, and 0 when no row matches |
| Reports.PeriodData | src/pages/Reports.jsx:98-133 | exactly BucketCount buckets, oldest first, bucket j for the unit count-1-j before today |
| Reports.MaxCount | src/pages/Reports.jsx:135 | the scale is at least 5, covers every bar, and is 5 or one of the bars |
| Reports.FindHour | src/pages/Reports.jsx:225 | finds the first row of an hour, or none has it |
| Reports.HourlyFill | src/pages/Reports.jsx:224-227 | 24 entries, entry i for hour i, counted from the first row of that hour or 0 |
| Reports.HourlyMax | src/pages/Reports.jsx:223 | at least 1, covers every row, and is 1 or one of the rows |
| Reports.HourlyMaxCoversFill | src/pages/Reports.jsx:223-227 | no filled hour exceeds the scale |
| QuickReplies.DraftOf | src/pages/QuickReplies.jsx:88 | the edit form carries the macro's id, and saving it reproduces the macro |
| QuickReplies.ReplaceById | src/pages/QuickReplies.jsx:19 | same length; every macro with the draft's id becomes the draft; all others are unchanged |
| QuickReplies.RemoveById | src/pages/QuickReplies.jsx:28 | drops exactly the macros with that id and keeps the rest in order |
| QuickReplies.Search | src/pages/QuickReplies.jsx:31 | keeps, in order, exactly the macros whose shortcut or text contains the term (with case), each as many times as it occurs |
| QuickReplies.SearchEmpty | src/pages/QuickReplies.jsx:31 | an empty term lists every macro |
| QuickReplies.ReplaceByIdIdempotent | src/pages/QuickReplies.jsx:18-19 | saving the same edit twice is saving it once |
| QuickReplies.DeleteAfterReplace | src/pages/QuickReplies.jsx:19-28 | an edit followed by a delete of its id is the delete alone |
| QuickReplies.AppendThenDelete | src/pages/QuickReplies.jsx:21-28 | a macro appended under a fresh id and then deleted leaves the list as it was |
| QuickReplies.QuickRepliesPage.constructor | src/pages/QuickReplies.jsx:7-14 | three sample macros, empty search, form closed and blank |
| QuickReplies.QuickRepliesPage.Filtered | src/pages/QuickReplies.jsx:31 | the shown rows are an ordered sub-list of the macros, all matching the search |
| QuickReplies.QuickRepliesPage.SetSearch | src/pages/QuickReplies.jsx:64 | the search term becomes the input |
| QuickReplies.QuickRepliesPage.StartNew | src/pages/QuickReplies.jsx:49 | the form opens on a draft without id, shortcut "/" and empty text |
| QuickReplies.QuickRepliesPage.StartEdit | src/pages/QuickReplies.jsx:88 | the form opens on the chosen macro |
| QuickReplies.QuickRepliesPage.EditDraft | src/pages/QuickReplies.jsx:119 | only the draft's shortcut and text change |
| QuickReplies.QuickRepliesPage.Cancel | src/pages/QuickReplies.jsx:139 | the form closes and the draft is kept |
| QuickReplies.QuickRepliesPage.Save | src/pages/QuickReplies.jsx:16-25 | a draft with a truthy id replaces by id; otherwise it is appended under `now`; the form closes and is reset |
| QuickReplies.QuickRepliesPage.Delete | src/pages/QuickReplies.jsx:27-29 | the list becomes the list without that id |
| Contacts.Search | src/pages/Contacts.jsx:14-18 | keeps, in order, exactly the cards whose name or email (ignoring case) or visitor id (with case) contains the term, each as many times as it occurs |
| Contacts.SearchEmpty | src/pages/Contacts.jsx:14-18 | an empty term lists every card |
| Contacts.NoEmailMatches | src/pages/Contacts.jsx:16 | a card without an email matches only through its name or visitor id |
| Contacts.NameIgnoresCase | src/pages/Contacts.jsx:15 | a name match survives lower-casing the term |
| Contacts.FindsOwnVisitorId | src/pages/Contacts.jsx:17 | searching a card's visitor id finds that card |
| Contacts.SessionLabel | src/pages/Contacts.jsx:84 | the count, then " session", then a final "s" if and only if the count exceeds 1 |
| LeftNav.Visible | src/components/LeftNav.jsx:25-26 | rendered entries are an ordered sub-list of the menu, and admin-only ones appear only for admins |
| LeftNav.AdminSeesAll | src/components/LeftNav.jsx:10-26 | an admin sees all ten entries in declaration order |
| LeftNav.OthersSeeFive | src/components/LeftNav.jsx:10-26 | anyone else, with no role included, sees exactly /inbox, /contacts, /archives, /quick-replies, /settings |
| LeftNav.IdsDistinct | src/components/LeftNav.jsx:10-21 | no two entries share a route |
| LeftNav.VisibleDistinct | src/components/LeftNav.jsx:25-26 | the rendered entries keep distinct routes |
| LeftNav.AtMostOneActive | src/components/LeftNav.jsx:27 | at most one rendered entry is highlighted, whatever the page |

## Left out

- Transport: socket.io rooms and `emit` become entries of the `outbox` log. Express routing, CORS and HTTP status codes are not modelled.
- Database failures: the 500 answers and the caught errors of every handler are not modelled; every query succeeds.
- SQL is not modelled. Tables are sequences in insertion order, and the JOIN in the badge queries is a lookup by conversation id.
- Concurrency: handlers never interleave at their `await` points.
- Timestamps: `joinedAt`, `timestamp`, `created_at` and `Date.now()` are dropped from entries and rows. The clock reading for a new macro id is a parameter.
- The other fields of the registration payload (`...data`) and `socketId` are not kept. An entry holds the visitor id, the bot flag and the last message.
- The e-mail HTML body, the sender header and the actual sending through nodemailer are not modelled. `encodeURIComponent` is a parameter of `Notify.Env`. Console logging is not modelled.
- Relay.Relay.VisitorMessage: records that the notifiers were called. It does not apply their configuration guards, which are modelled separately in `Notify.EmailFor` and `Notify.WhatsAppFor`.
- Text.ToLower: only ASCII letters are lower-cased. Unicode case mapping is not modelled.
- Reports.FormatTime: integer seconds only. A fractional average would be printed with decimals by the source.
- Reports.BucketFor: the axis label is reduced to whether it is non-empty. `toLocaleDateString` text and calendar arithmetic are not modelled; the day key of each bucket is a parameter of `Reports.PeriodData`.
- Relay.Relay.UnreadNotifications: messages with equal `created_at` are ordered by insertion. SQL does not fix the order of ties.
- Store.History: messages with equal `created_at` are listed in insertion order. SQL does not fix the order of ties.
- Relay.Relay.RegisterVisitor: the history it sends is `Store.History`, so same-second messages come in insertion order. SQL does not fix the order of ties.
- Store.UnreadSummary: the rows in `latest` do not carry the joined `c.visitor_id` column (server.js:154). A message row holds only its conversation id.
- `conversionRate` (src/pages/Reports.jsx:332-334) uses floating-point division and `toFixed`, and is not modelled.
- The auth, user, stats and summary endpoints, the conversation list and message endpoints, and the migrations are not modelled. They are thin wrappers over the database.
- Rendering, animation, `localStorage` and the polling effects of the React pages are not modelled. The stored role reaches the menu as a parameter of `LeftNav.Visible`.
