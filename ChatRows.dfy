/**
 * `get_chats` (backend/messenger/index.py:59-103): the rows the chat-list
 * query returns, with each row's unread count capped at three by an in-place
 * loop before the list is sent. The query itself is not modelled; its rows
 * are the input.
 */
module ChatRows {
  import opened Wrappers

  /** The largest unread count the API reports. */
  const MaxUnread: int := 3

  /** One row of the chat-list query. */
  datatype ChatRow = ChatRow(
    id: int,
    name: Option<string>,
    avatar: Option<string>,
    isGroup: Option<bool>,
    isArchived: Option<bool>,
    lastMessage: Option<string>,
    time: Option<string>,
    unread: int)

  /** The body of the loop: a row with more than three unread messages reports exactly three. */
  function Clamp(row: ChatRow): (r: ChatRow)
    ensures r.unread <= MaxUnread
    ensures row.unread <= MaxUnread ==> r == row
    ensures row.unread > MaxUnread ==> r.unread == MaxUnread
    ensures r == row.(unread := r.unread)
  {
    if row.unread > MaxUnread then row.(unread := MaxUnread) else row
  }

  /** The loop over the fetched rows, updating each row's `unread` in place. */
  method ClampUnread(rows: array<ChatRow>)
    modifies rows
    ensures forall i :: 0 <= i < rows.Length ==> rows[i] == Clamp(old(rows[i]))
  {
    var i := 0;
    while i < rows.Length
      invariant 0 <= i <= rows.Length
      invariant forall k :: 0 <= k < i ==> rows[k] == Clamp(old(rows[k]))
      invariant forall k :: i <= k < rows.Length ==> rows[k] == old(rows[k])
    {
      if rows[i].unread > MaxUnread {
        rows[i] := rows[i].(unread := MaxUnread);
      }
      i := i + 1;
    }
  }

  /**
   * The chat list `get_chats` sends: the fetched rows in their order, each
   * with at most three unread, every other field as fetched.
   */
  method GetChats(fetched: seq<ChatRow>) returns (chats: seq<ChatRow>)
    ensures |chats| == |fetched|
    ensures forall i :: 0 <= i < |chats| ==> chats[i].unread <= MaxUnread
    ensures forall i :: 0 <= i < |chats| && fetched[i].unread <= MaxUnread ==> chats[i] == fetched[i]
    ensures forall i :: 0 <= i < |chats| && fetched[i].unread > MaxUnread ==>
              chats[i] == fetched[i].(unread := MaxUnread)
  {
    var rows := new ChatRow[|fetched|](i requires 0 <= i < |fetched| => fetched[i]);
    ClampUnread(rows);
    chats := rows[..];
  }
}
