/**
 * The writing handlers of the messenger API (backend/messenger/index.py:152-240):
 * `send_message`, `create_group` and `archive_chat`. The database is a
 * `Store` whose tables are sequences of the rows inserted into them, in
 * insertion order; the id the database assigns to a new chat is an input.
 * `str.upper` is a Unicode table and is the parameter `upper`.
 */
module Groups {
  import opened Routing

  /** The user every request acts for: the API has no authentication and user 1 is "me". */
  const CurrentUser: Json := JInt(1)

  /** A row inserted into `chats` by `create_group`. */
  datatype ChatInsert = ChatInsert(name: string, isGroup: bool, avatar: string)

  /** A row inserted into `chat_members`. */
  datatype MemberRow = MemberRow(chatId: int, userId: Json, isAdmin: bool)

  /** A row inserted into `messages`: the three values bound to the INSERT's parameters. */
  datatype MessageInsert = MessageInsert(chatId: Json, userId: Json, text: Json)

  /** The two values bound to `archive_chat`'s UPDATE. */
  datatype ArchiveUpdate = ArchiveUpdate(chatId: Json, isArchived: Json)

  // ---------------------------------------------------------------------
  // Request fields and their defaults
  // ---------------------------------------------------------------------

  /** `send_message`'s fields: `chat_id` and `text` as given (or null), `user_id` defaulting to 1. */
  function SendMessageArgs(body: Body): (m: MessageInsert)
    ensures "user_id" !in body ==> m.userId == CurrentUser
    ensures "user_id" in body ==> m.userId == body["user_id"]
    ensures m.chatId == (if "chat_id" in body then body["chat_id"] else JNull)
    ensures m.text == (if "text" in body then body["text"] else JNull)
  {
    MessageInsert(Get(body, "chat_id", JNull), Get(body, "user_id", CurrentUser), Get(body, "text", JNull))
  }

  /** `archive_chat`'s fields: `is_archived` defaults to true, so a bare request archives. */
  function ArchiveArgs(body: Body): (u: ArchiveUpdate)
    ensures "is_archived" !in body ==> u.isArchived == JBool(true)
    ensures "is_archived" in body ==> u.isArchived == body["is_archived"]
    ensures u.chatId == (if "chat_id" in body then body["chat_id"] else JNull)
  {
    ArchiveUpdate(Get(body, "chat_id", JNull), Get(body, "is_archived", JBool(true)))
  }

  /** `key` is missing or holds a JSON list. */
  predicate ListOrAbsent(body: Body, key: string) {
    key !in body || body[key].JList?
  }

  /** `member_ids` is missing or the empty list, so the membership loop never runs. */
  predicate NoMembers(body: Body) {
    Get(body, "member_ids", JList([])) == JList([])
  }

  /**
   * What `create_group` needs of its body: a string `name` (a missing or null
   * name fails at `name[:2]`), `member_ids` a list when given, and `admin_ids`
   * a list when given, unless there are no members, in which case
   * `admin_ids` is never read and may hold anything.
   */
  predicate GroupBody(body: Body) {
    && "name" in body && body["name"].JStr?
    && ListOrAbsent(body, "member_ids")
    && (ListOrAbsent(body, "admin_ids") || NoMembers(body))
  }

  datatype GroupRequest = GroupRequest(name: string, memberIds: seq<Json>, adminIds: seq<Json>)

  /**
   * `create_group`'s fields: `member_ids` and `admin_ids` default to empty
   * lists. An `admin_ids` that is not a list is only possible without members;
   * it is never consulted then, and stands here as the empty list.
   */
  function GroupRequestOf(body: Body): (g: GroupRequest)
    requires GroupBody(body)
    ensures JStr(g.name) == body["name"]
    ensures "member_ids" !in body ==> g.memberIds == []
    ensures "member_ids" in body ==> JList(g.memberIds) == body["member_ids"]
    ensures "admin_ids" !in body ==> g.adminIds == []
    ensures "admin_ids" in body && body["admin_ids"].JList? ==> JList(g.adminIds) == body["admin_ids"]
    ensures !ListOrAbsent(body, "admin_ids") ==> g.memberIds == [] && g.adminIds == []
  {
    var admins := Get(body, "admin_ids", JList([]));
    GroupRequest(
      body["name"].s,
      Get(body, "member_ids", JList([])).items,
      if admins.JList? then admins.items else [])
  }

  // ---------------------------------------------------------------------
  // The group avatar: name[:2].upper()
  // ---------------------------------------------------------------------

  /** `name[:2]`: the first two characters, or the whole name when it is shorter. */
  function Initials(name: string): (p: string)
    ensures p <= name
    ensures |p| == if |name| < 2 then |name| else 2
  {
    if |name| < 2 then name else name[..2]
  }

  /** `name[:2].upper()` */
  function Avatar(name: string, upper: string -> string): string {
    upper(Initials(name))
  }

  // ---------------------------------------------------------------------
  // The membership rows of a new group
  // ---------------------------------------------------------------------

  /** One `chat_members` row per member id, in order, admin exactly when the id is among the admin ids. */
  function MemberRows(chatId: int, memberIds: seq<Json>, adminIds: seq<Json>): seq<MemberRow>
    decreases |memberIds|
  {
    if memberIds == [] then []
    else
      var last := memberIds[|memberIds| - 1];
      MemberRows(chatId, memberIds[..|memberIds| - 1], adminIds) + [MemberRow(chatId, last, last in adminIds)]
  }

  /** All rows `create_group` inserts into `chat_members`: the creator as admin, then the members. */
  function GroupRows(chatId: int, memberIds: seq<Json>, adminIds: seq<Json>): seq<MemberRow> {
    [MemberRow(chatId, CurrentUser, true)] + MemberRows(chatId, memberIds, adminIds)
  }

  lemma {:induction false} MemberRowsAt(chatId: int, memberIds: seq<Json>, adminIds: seq<Json>)
    ensures |MemberRows(chatId, memberIds, adminIds)| == |memberIds|
    ensures forall i :: 0 <= i < |memberIds| ==>
              MemberRows(chatId, memberIds, adminIds)[i] == MemberRow(chatId, memberIds[i], memberIds[i] in adminIds)
    decreases |memberIds|
  {
    if memberIds != [] {
      var init := memberIds[..|memberIds| - 1];
      MemberRowsAt(chatId, init, adminIds);
      assert forall i :: 0 <= i < |init| ==> init[i] == memberIds[i];
    }
  }

  /**
   * The first row is the creator, user 1, as admin; after it comes exactly
   * one row per member id, in order, admin iff the id is an admin id.
   */
  lemma GroupRowsShape(chatId: int, memberIds: seq<Json>, adminIds: seq<Json>)
    ensures var rows := GroupRows(chatId, memberIds, adminIds);
      && |rows| == |memberIds| + 1
      && rows[0] == MemberRow(chatId, CurrentUser, true)
      && forall i :: 0 <= i < |memberIds| ==>
           rows[i + 1] == MemberRow(chatId, memberIds[i], memberIds[i] in adminIds)
  {
    MemberRowsAt(chatId, memberIds, adminIds);
  }

  /**
   * Without members only the creator's row is inserted, whatever `admin_ids`
   * holds, even `null`: the loop never reads it.
   */
  lemma CreatorOnlyWithoutMembers(body: Body, chatId: int)
    requires GroupBody(body) && NoMembers(body)
    ensures GroupBody(body["admin_ids" := JNull])
    ensures var g := GroupRequestOf(body);
      GroupRows(chatId, g.memberIds, g.adminIds) == [MemberRow(chatId, CurrentUser, true)]
  {
    assert GroupRequestOf(body).memberIds == [];
  }

  function UserIds(rows: seq<MemberRow>): (ids: seq<Json>)
    ensures |ids| == |rows|
    ensures forall i :: 0 <= i < |rows| ==> ids[i] == rows[i].userId
  {
    seq(|rows|, i requires 0 <= i < |rows| => rows[i].userId)
  }

  /**
   * The users after the creator are exactly the member ids in order: an id
   * given only among the admin ids gets no row, a repeated member id gets
   * one row per occurrence.
   */
  lemma GroupMembersAreMemberIds(chatId: int, memberIds: seq<Json>, adminIds: seq<Json>)
    ensures UserIds(GroupRows(chatId, memberIds, adminIds)[1..]) == memberIds
    ensures forall x :: x in adminIds && x !in memberIds ==>
              forall r :: r in GroupRows(chatId, memberIds, adminIds)[1..] ==> r.userId != x
    ensures forall x :: multiset(UserIds(GroupRows(chatId, memberIds, adminIds)[1..]))[x] == multiset(memberIds)[x]
  {
    GroupRowsShape(chatId, memberIds, adminIds);
    var after := GroupRows(chatId, memberIds, adminIds)[1..];
    assert UserIds(after) == memberIds;
    forall x, r | x in adminIds && x !in memberIds && r in after
      ensures r.userId != x
    {
      var i :| 0 <= i < |after| && after[i] == r;
      assert r.userId == memberIds[i];
    }
  }

  /** Every member row is an admin row exactly when its user is among the admin ids or is the creator. */
  lemma GroupAdmins(chatId: int, memberIds: seq<Json>, adminIds: seq<Json>, r: MemberRow)
    requires r in GroupRows(chatId, memberIds, adminIds)
    ensures r.chatId == chatId
    ensures r.isAdmin <==> r.userId in adminIds || r == MemberRow(chatId, CurrentUser, true)
  {
    GroupRowsShape(chatId, memberIds, adminIds);
    var rows := GroupRows(chatId, memberIds, adminIds);
    var i :| 0 <= i < |rows| && rows[i] == r;
    if i > 0 {
      assert r == MemberRow(chatId, memberIds[i - 1], memberIds[i - 1] in adminIds);
    }
  }

  // ---------------------------------------------------------------------
  // The database, as the rows and updates the handlers issue
  // ---------------------------------------------------------------------

  class Store {
    /** Rows inserted into `chats`, oldest first. */
    var chats: seq<ChatInsert>
    /** Rows inserted into `chat_members`, oldest first. */
    var members: seq<MemberRow>
    /** Rows inserted into `messages`, oldest first. */
    var messages: seq<MessageInsert>
    /** The `is_archived` updates issued, oldest first. */
    var archiveUpdates: seq<ArchiveUpdate>
    /** The chat ids whose `updated_at` was stamped with the current time, oldest first. */
    var touchedChats: seq<Json>

    constructor ()
      ensures chats == [] && members == [] && messages == [] && archiveUpdates == [] && touchedChats == []
    {
      chats, members, messages, archiveUpdates, touchedChats := [], [], [], [], [];
    }

    /**
     * `send_message`: one message row with the request's fields, `user_id`
     * defaulting to 1, then the chat's `updated_at` stamp.
     */
    method SendMessage(body: Body)
      modifies this
      ensures messages == old(messages) + [SendMessageArgs(body)]
      ensures touchedChats == old(touchedChats) + [SendMessageArgs(body).chatId]
      ensures chats == old(chats) && members == old(members) && archiveUpdates == old(archiveUpdates)
    {
      var row := SendMessageArgs(body);
      messages := messages + [row];
      touchedChats := touchedChats + [row.chatId];
    }

    /** `archive_chat`: one update of `is_archived`, true unless the request says otherwise. */
    method ArchiveChat(body: Body)
      modifies this
      ensures archiveUpdates == old(archiveUpdates) + [ArchiveArgs(body)]
      ensures chats == old(chats) && members == old(members) && messages == old(messages)
      ensures touchedChats == old(touchedChats)
    {
      archiveUpdates := archiveUpdates + [ArchiveArgs(body)];
    }

    /**
     * `create_group`: a group chat row whose avatar is the upper-cased first
     * two characters of the name, then the creator's membership, then one
     * membership per member id, inserted one at a time. `newChatId` is the id
     * the database returns for the new chat, and the method returns it.
     */
    method CreateGroup(body: Body, newChatId: int, upper: string -> string) returns (chatId: int)
      requires GroupBody(body)
      modifies this
      ensures chatId == newChatId
      ensures var g := GroupRequestOf(body);
        && chats == old(chats) + [ChatInsert(g.name, true, Avatar(g.name, upper))]
        && members == old(members) + GroupRows(newChatId, g.memberIds, g.adminIds)
      ensures messages == old(messages) && archiveUpdates == old(archiveUpdates)
      ensures touchedChats == old(touchedChats)
    {
      var g := GroupRequestOf(body);
      chats := chats + [ChatInsert(g.name, true, Avatar(g.name, upper))];
      chatId := newChatId;
      members := members + [MemberRow(chatId, CurrentUser, true)];
      for i := 0 to |g.memberIds|
        invariant members == old(members) + [MemberRow(chatId, CurrentUser, true)] +
                             MemberRows(chatId, g.memberIds[..i], g.adminIds)
        invariant chats == old(chats) + [ChatInsert(g.name, true, Avatar(g.name, upper))]
        invariant messages == old(messages) && archiveUpdates == old(archiveUpdates)
        invariant touchedChats == old(touchedChats)
      {
        var memberId := g.memberIds[i];
        var isAdmin := memberId in g.adminIds;
        assert g.memberIds[..i + 1][..i] == g.memberIds[..i];
        members := members + [MemberRow(chatId, memberId, isAdmin)];
      }
      assert g.memberIds[..|g.memberIds|] == g.memberIds;
    }
  }
}
