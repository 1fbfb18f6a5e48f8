/**
 * The messenger page's component state (src/pages/Index.tsx:36-74): the four
 * `useState` cells become mutable fields of `Screen`, the three literal
 * arrays its constant fields, and the event handlers its methods.
 */
module ChatScreen {
  import opened Wrappers
  import opened ChatList

  /** A message of the open thread. */
  datatype Message = Message(id: int, text: string, time: string, isMine: bool)

  /** The chats the page renders (src/pages/Index.tsx:42-48). */
  const SeedChats: seq<Chat> := [
    Chat(1, "Команда разработки", "Встреча в 15:00", "14:23", 3, "КР", Some(true), None),
    Chat(2, "Мария Иванова", "Отправила файлы", "13:45", 0, "МИ", None, None),
    Chat(3, "Дизайн проекта", "Алекс: Новые макеты готовы", "12:10", 1, "ДП", Some(true), None),
    Chat(4, "Петр Сидоров", "Созвонимся завтра?", "вчера", 0, "ПС", None, None),
    Chat(5, "Архивный чат", "Старое сообщение", "01.02", 0, "АЧ", None, Some(true))
  ]

  /** The thread the page renders (src/pages/Index.tsx:57-62). */
  const SeedMessages: seq<Message> := [
    Message(1, "Привет! Как дела?", "14:20", false),
    Message(2, "Отлично! Работаю над новым проектом", "14:21", true),
    Message(3, "Звучит интересно! Расскажешь подробнее?", "14:22", false),
    Message(4, "Конечно! Встреча в 15:00", "14:23", true)
  ]

  /** Filtering a list with one leading chat: the callback decides that chat, the rest filters on. */
  lemma FilterCons(c: Chat, rest: seq<Chat>, section: Section, query: string, lower: string -> string)
    ensures FilterChats([c] + rest, section, query, lower) ==
            (if Keep(section, query, lower, c) then [c] else []) + FilterChats(rest, section, query, lower)
  {
    assert ([c] + rest)[1..] == rest;
  }

  /** Four active chats followed by an archived one: the chats section keeps the four, the archive section the last. */
  lemma FourActiveOneArchived(a: Chat, b: Chat, c: Chat, d: Chat, e: Chat, query: string, lower: string -> string)
    requires !Archived(a) && !Archived(b) && !Archived(c) && !Archived(d) && Archived(e)
    ensures FilterChats([a, b, c, d, e], Chats, query, lower) == [a, b, c, d]
    ensures FilterChats([a, b, c, d, e], Archive, query, lower) == [e]
  {
    forall section | section == Chats || section == Archive
      ensures FilterChats([a, b, c, d, e], section, query, lower) ==
              if section == Chats then [a, b, c, d] else [e]
    {
      FilterCons(e, [], section, query, lower);
      FilterCons(d, [e], section, query, lower);
      FilterCons(c, [d, e], section, query, lower);
      FilterCons(b, [c, d, e], section, query, lower);
      FilterCons(a, [b, c, d, e], section, query, lower);
    }
  }

  /** On the page's own data the chats section lists chats 1 to 4 and the archive section only the archived chat 5. */
  lemma SeedSections(query: string, lower: string -> string)
    ensures FilterChats(SeedChats, Chats, query, lower) == SeedChats[..4]
    ensures FilterChats(SeedChats, Archive, query, lower) == SeedChats[4..]
  {
    var s := SeedChats;
    assert s == [s[0], s[1], s[2], s[3], s[4]];
    FourActiveOneArchived(s[0], s[1], s[2], s[3], s[4], query, lower);
  }

  class Screen {
    var activeSection: Section
    /** `number | null`: `None` is `null`. */
    var activeChat: Option<int>
    var messageText: string
    var searchQuery: string

    const chats: seq<Chat> := SeedChats
    const messages: seq<Message> := SeedMessages

    /** The initial values passed to `useState` (src/pages/Index.tsx:37-40). */
    constructor ()
      ensures activeSection == Chats && activeChat == Some(1)
      ensures messageText == [] && searchQuery == []
    {
      activeSection := Chats;
      activeChat := Some(1);
      messageText := [];
      searchQuery := [];
    }

    /**
     * The chats the sidebar lists in the current state: `filteredChats`, in
     * the three sections that render it (src/pages/Index.tsx:178-180), and
     * no chat list at all in the others.
     */
    function SidebarChats(lower: string -> string): (r: Option<seq<Chat>>)
      reads this
      ensures r.Some? <==> ListsChats(activeSection)
      ensures r.Some? ==> |r.value| <= |chats| &&
                          forall c :: c in r.value ==> c in chats && Keep(activeSection, searchQuery, lower, c)
    {
      if ListsChats(activeSection) then Some(FilterChats(chats, activeSection, searchQuery, lower)) else None
    }

    /** `activeChat ? ... : ...`: the thread pane is open when `activeChat` is truthy (non-null, non-zero). */
    predicate ChatOpen()
      reads this
    {
      activeChat.Some? && activeChat.value != 0
    }

    /**
     * The chat the open thread's header shows: `chats.find(c => c.id === activeChat)`.
     * Its avatar and name are `undefined` when nothing is found.
     */
    function HeaderChat(): (r: Option<Chat>)
      reads this
      requires ChatOpen()
      ensures r.Some? ==> r.value in chats && r.value.id == activeChat.value
      ensures r.None? <==> forall c :: c in chats ==> c.id != activeChat.value
    {
      FindChat(chats, activeChat.value)
    }

    /**
     * `handleSendMessage`: clears the draft when its trim is non-empty, and
     * changes nothing else; in particular no message is appended (`messages`
     * is a constant field).
     */
    method HandleSendMessage(isSpace: char -> bool)
      modifies this
      ensures AllSpace(old(messageText), isSpace) ==> messageText == old(messageText)
      ensures !AllSpace(old(messageText), isSpace) ==> messageText == []
      ensures activeSection == old(activeSection) && activeChat == old(activeChat)
      ensures searchQuery == old(searchQuery)
    {
      TrimEmptyIffAllSpace(messageText, isSpace);
      if Trim(messageText, isSpace) != [] {
        messageText := [];
      }
    }

    /** A sidebar button: `setActiveSection(item.id)`. */
    method SelectSection(section: Section)
      modifies this
      ensures activeSection == section
      ensures activeChat == old(activeChat) && messageText == old(messageText)
      ensures searchQuery == old(searchQuery)
    {
      activeSection := section;
    }

    /** The search box: `setSearchQuery(e.target.value)`. */
    method SetSearchQuery(query: string)
      modifies this
      ensures searchQuery == query
      ensures activeSection == old(activeSection) && activeChat == old(activeChat)
      ensures messageText == old(messageText)
    {
      searchQuery := query;
    }

    /** A click on a listed chat: `setActiveChat(chat.id)`. */
    method SelectChat(id: int)
      modifies this
      ensures activeChat == Some(id)
      ensures activeSection == old(activeSection) && messageText == old(messageText)
      ensures searchQuery == old(searchQuery)
    {
      activeChat := Some(id);
    }

    /** The draft box: `setMessageText(e.target.value)`. */
    method SetMessageText(text: string)
      modifies this
      ensures messageText == text
      ensures activeSection == old(activeSection) && activeChat == old(activeChat)
      ensures searchQuery == old(searchQuery)
    {
      messageText := text;
    }
  }

  /** Chat ids in a list are pairwise distinct. */
  ghost predicate UniqueIds(chats: seq<Chat>) {
    forall i, j :: 0 <= i < j < |chats| ==> chats[i].id != chats[j].id
  }

  /** When ids are unique, the header lookup for the id of any chat in `filteredChats` finds that very chat. */
  lemma {:induction false} HeaderFindsListedChat(chats: seq<Chat>, section: Section, query: string, lower: string -> string, c: Chat)
    requires UniqueIds(chats)
    requires c in FilterChats(chats, section, query, lower)
    ensures FindChat(chats, c.id) == Some(c)
  {
    FilterMembership(chats, section, query, lower, c);
    var k :| 0 <= k < |chats| && chats[k] == c;
    FindChatIsFirst(chats, c.id, k);
  }

  /**
   * The page's chats have distinct ids, so clicking any chat the sidebar
   * lists (in the chats, search or archive section) opens a header showing it.
   */
  lemma SeedHeaderFindsListedChat(section: Section, query: string, lower: string -> string, c: Chat)
    requires ListsChats(section)
    requires c in FilterChats(SeedChats, section, query, lower)
    ensures FindChat(SeedChats, c.id) == Some(c)
  {
    HeaderFindsListedChat(SeedChats, section, query, lower, c);
  }
}
