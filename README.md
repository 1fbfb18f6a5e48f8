# Messenger chat list and API core, in Dafny

This project models the logic of a small Telegram-style messenger. The
messenger has two parts.

- **The page** (`src/pages/Index.tsx`) is one React component.
  - It holds the active sidebar section, the open chat, the draft and the search query in state cells.
  - It computes `filteredChats` for the active section and lists it in the sidebar in the chats, search and archive sections.
  - It finds the open chat for the thread header with `chats.find`.
  - It clears the draft on send only when the draft is not blank: `handleSendMessage`.
- **The API** (`backend/messenger/index.py`) is one serverless handler.
  - It answers CORS preflights before it opens a database connection.
  - It routes GET requests on the `action` query parameter and POST requests on the body's `action` field. Anything else gets a fixed 400 answer.
  - `get_chats` caps each chat's unread count at 3, in place.
  - `create_group` inserts the chat, whose avatar is the upper-cased first (at most) two characters of its name. It then inserts the creator as an admin member and one membership per requested member.
  - `send_message` and `archive_chat` fill in default request fields.

The modules are:

- `ChatList`: the pure selection logic of the page, meaning the filter, the header lookup and the trim guard.
- `ChatScreen`: the page's state as a class `Screen`, with the page's own literal data.
- `Routing`: the handler's dispatch and its two fixed answers.
- `ChatRows`: the unread clamp, as a loop over an array.
- `Groups`: the request defaults, the group avatar, and the membership rows. The database is a `Store` whose tables are sequences of inserted rows.

Some of the code's dependencies are not modelled, so the model takes them as inputs instead:

- the rows a SQL query returns;
- the id the database gives a new chat;
- the answer of every routed handler (`Routing.Handle`'s `serve`);
- the Unicode tables behind JavaScript's `toLowerCase`, Python's `str.upper` and the whitespace set of JavaScript's `trim` (`lower`, `upper`, `isSpace`).

Some facts about the code that the model keeps:

- `handleSendMessage` only clears the draft. It sends nothing and appends no message.
- `create_group` does not check that the name or the member list is non-empty. An empty name gives empty initials, which are then upper-cased.

## Model

| member | source | states |
|---|---|---|
| `ChatList.FilterChats` | src/pages/Index.tsx:64-68 | `filteredChats` is never longer than `chats` and holds only chats of `chats` that the section's callback keeps |
| `ChatList.FilterIsSubsequence` | src/pages/Index.tsx:64-68 | `filteredChats` is a subsequence of `chats`: order is kept and nothing is added |
| `ChatList.FilterMultiplicity` | src/pages/Index.tsx:64-68 | each chat appears in `filteredChats` as often as in `chats` when the callback keeps it, and otherwise not at all |
| `ChatList.FilterMembership` | src/pages/Index.tsx:64-68 | a chat is in `filteredChats` if and only if it is in `chats` and the callback keeps it |
| `ChatList.ArchiveShowsArchived` | src/pages/Index.tsx:65 | in the archive section `filteredChats` holds exactly the chats whose `isArchived` is true |
| `ChatList.SearchMatchesNames` | src/pages/Index.tsx:66 | in the search section `filteredChats` holds exactly the chats whose lower-cased name contains the lower-cased query at some offset, archived or not |
| `ChatList.IncludesIffOccurs` | src/pages/Index.tsx:66 | the substring test `includes` holds if and only if the needle occurs in the haystack at some offset |
| `ChatList.EmptySearchShowsAll` | src/pages/Index.tsx:66 | in the search section, a query that lower-cases to the empty string keeps every chat, in order |
| `ChatList.OtherSectionsShowActive` | src/pages/Index.tsx:67 | in every section other than archive and search, `filteredChats` evaluates to exactly the chats that are not archived; of these sections only the chats section renders it |
| `ChatList.ArchiveAndChatsPartition` | src/pages/Index.tsx:65-67 | every chat lands in exactly one of the archive list and the chats list: their multisets add up to that of `chats` |
| `ChatList.FindChat` | src/pages/Index.tsx:286 | the lookup yields a chat with the id at the first index that carries it, or nothing when no chat has the id |
| `ChatList.FindChatIsFirst` | src/pages/Index.tsx:290 | if index k carries the id and no earlier index does, the lookup yields the chat at k |
| `ChatList.TrimEmptyIffAllSpace` | src/pages/Index.tsx:71 | the trimmed draft is empty if and only if every character of the draft is whitespace |
| `ChatScreen.SeedSections` | src/pages/Index.tsx:42-48 | on the page's own chats, the chats section lists chats 1 to 4 and the archive section lists only chat 5 |
| `ChatScreen.HeaderFindsListedChat` | src/pages/Index.tsx:183 | with distinct ids, the header lookup for the id of any chat in `filteredChats` finds that same chat |
| `ChatScreen.SeedHeaderFindsListedChat` | src/pages/Index.tsx:178-183 | in the chats, search and archive sections, which render the list, the page's chats have distinct ids, so clicking any listed chat puts that chat in the header |
| `ChatScreen.Screen.SidebarChats` | src/pages/Index.tsx:178-180 | the sidebar shows a chat list exactly in the chats, search and archive sections; that list holds only chats the section's callback keeps and is never longer than `chats` |
| `ChatScreen.Screen.constructor` | src/pages/Index.tsx:37-40 | the page starts in the chats section with chat 1 open and an empty draft and query |
| `ChatScreen.Screen.HeaderChat` | src/pages/Index.tsx:280-290 | while a chat is open, the header shows a chat of the list with the open id, and nothing exactly when no chat has that id |
| `ChatScreen.Screen.HandleSendMessage` | src/pages/Index.tsx:70-74 | an all-whitespace draft is kept as it is and any other draft becomes empty; section, open chat and query do not change and no message is added |
| `ChatScreen.Screen.SelectSection` | src/pages/Index.tsx:95 | a sidebar button sets the section and changes nothing else |
| `ChatScreen.Screen.SetSearchQuery` | src/pages/Index.tsx:124 | typing in the search box sets the query and changes nothing else |
| `ChatScreen.Screen.SelectChat` | src/pages/Index.tsx:183 | clicking a listed chat opens its id and changes nothing else |
| `ChatScreen.Screen.SetMessageText` | src/pages/Index.tsx:337 | typing in the draft box sets the draft and changes nothing else |
| `Routing.Route` | backend/messenger/index.py:10-54 | OPTIONS, and only OPTIONS, goes to the preflight; a request is invalid if and only if it is not one of the served method and action pairs; GET handlers are reached only by GET and POST handlers only by POST, with the whole body |
| `Routing.MissingMethodIsGet` | backend/messenger/index.py:10 | an event without `httpMethod` is routed exactly like a GET |
| `Routing.GetDefaultsToChats` | backend/messenger/index.py:28-31 | a GET without an `action` parameter, or without query parameters, lists the chats |
| `Routing.GetRoutes` | backend/messenger/index.py:28-36 | GET `messages` goes to the messages handler with the `chat_id` parameter, or none; `contacts` and `chats` go to their handlers |
| `Routing.PostRoutes` | backend/messenger/index.py:39-47 | POST `send_message`, `create_group` and `archive_chat` go to their handlers with the decoded body |
| `Routing.PostWithoutActionIsInvalid` | backend/messenger/index.py:39-54 | a POST without an `action` field, or without a body, is an invalid request |
| `Routing.Handle` | backend/messenger/index.py:7-57 | a preflight opens no connection and answers 200 with an empty body, allowing `GET, POST, OPTIONS`; every other request opens one; an unrecognised request answers 400 with `{"error": "Invalid request"}`; any other request gets its handler's answer |
| `ChatRows.Clamp` | backend/messenger/index.py:93-94 | a row's unread becomes at most 3; a row at or below 3 is unchanged; a row above 3 gets exactly 3; no other field changes |
| `ChatRows.ClampUnread` | backend/messenger/index.py:92-94 | the in-place loop leaves every row of the array clamped, at the same position |
| `ChatRows.GetChats` | backend/messenger/index.py:90-94 | the chat list sent has the fetched rows in order, each with unread at most 3; rows at or below 3 are as fetched and rows above 3 have exactly 3 |
| `Groups.SendMessageArgs` | backend/messenger/index.py:154-156 | a missing `user_id` defaults to user 1; `chat_id` and `text` are taken as given, or null when missing |
| `Groups.ArchiveArgs` | backend/messenger/index.py:223-224 | a missing `is_archived` defaults to true; `chat_id` is taken as given, or null when missing |
| `Groups.GroupRequestOf` | backend/messenger/index.py:185-187 | the group name is the body's string; missing `member_ids` and `admin_ids` default to empty lists; a given list is taken as it is, and a non-list `admin_ids` occurs only without members |
| `Groups.CreatorOnlyWithoutMembers` | backend/messenger/index.py:199-209 | without members only the creator's row is inserted, and the body stays admissible when `admin_ids` is set to `null` |
| `Groups.Initials` | backend/messenger/index.py:195 | `name[:2]` is a prefix of the name of length two, or the whole name when it is shorter |
| `Groups.MemberRowsAt` | backend/messenger/index.py:204-209 | the member rows are one per member id, at the same position, with admin set exactly when the id is an admin id |
| `Groups.GroupRowsShape` | backend/messenger/index.py:199-209 | the first membership row is the new chat with user 1 as admin, followed by one row per member id in order, admin if and only if the id is an admin id |
| `Groups.GroupMembersAreMemberIds` | backend/messenger/index.py:204-209 | the users after the creator are exactly the member ids in order: ids given only as admins get no row, and repeated ids get one row each |
| `Groups.GroupAdmins` | backend/messenger/index.py:199-209 | every inserted membership belongs to the new chat and is an admin row if and only if it is the creator's row or its user is an admin id |
| `Groups.Store.SendMessage` | backend/messenger/index.py:152-173 | `send_message` appends one message row with the request's chat, text and user (user 1 by default), then records the `updated_at` stamp of that chat; no other modelled table changes |
| `Groups.Store.ArchiveChat` | backend/messenger/index.py:221-230 | `archive_chat` issues one `is_archived` update, true by default, and no other modelled table changes |
| `Groups.Store.CreateGroup` | backend/messenger/index.py:183-209 | `create_group` appends one group chat whose avatar is the upper-cased `name[:2]`, then exactly the membership rows of `GroupRows`, and returns the database's chat id |

## Left out

- All rendering in `src/pages/Index.tsx` is left out: JSX, CSS classes, icons, dialogs and the group-creation dialog, whose checkboxes hold no state.
- The database is left out: connecting, cursors, `commit`, `close` and every SQL statement, including the joins that compute the last message and the unread count, `ORDER BY` and `TO_CHAR`. Fetched rows and the new chat's id are inputs, and inserts are appended rows.
- `Routing.Handle`: every recognised request other than a preflight is answered by the abstract `serve`. That covers all six handlers. `get_messages` and `get_contacts` consist only of SQL and are modelled only as routes. The unread clamp (`ChatRows.GetChats`) and the writes (`Groups.Store`) are modelled separately. Nothing ties them to `serve`.
- `Groups.Store.SendMessage`: the `updated_at` stamp is recorded only as the chat id it was issued for, not as a time. The inserted row that `send_message` returns, with `is_mine` computed in SQL, is not modelled.
- JSON decoding and encoding (`json.loads`, `json.dumps`) are left out. A POST body is the object it decodes to. `Routing.Json` has no object or floating-point variant, so JSON numbers are integers and nested objects inside a body are not modelled. A body that decodes to something other than an object, where `.get` would fail, is not modelled.
- Routing: an event whose `queryStringParameters` is present but null is not modelled. On such an event `.get` raises at index.py:28 and :33. `None` in `Routing.Event` means that the key is missing.
- `Groups.GroupMembersAreMemberIds`: membership in `admin_ids` uses structural JSON equality. Python's cross-type equality, such as `True == 1`, is not modelled.
- `Groups.Store.CreateGroup`: the model requires `member_ids` to be a list when it is present. It also requires `admin_ids` to be a list when it is present and there are members. For a non-list `member_ids`, Python would iterate a string's characters or raise `TypeError`. With members, a non-list `admin_ids` makes `member_id in admin_ids` do a substring test or raise `TypeError`. Those paths are not modelled. Without members, `admin_ids` is never read and may hold anything; the model covers that case (`Groups.CreatorOnlyWithoutMembers`).
- Unicode case mapping (`toLowerCase`, `str.upper`) and the whitespace set of `trim` are parameters of the model, not definitions. Both JavaScript strings (UTF-16 code units) and Python strings are modelled as sequences of characters.
- Edit, delete, reactions, typing indicators, polling, debounce timers and optimistic updates do not appear in this code, so they are not modelled.
