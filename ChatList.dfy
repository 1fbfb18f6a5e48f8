/**
 * The chat list of the messenger page (src/pages/Index.tsx): which chats the
 * sidebar shows for the active section, the header's lookup of the open chat,
 * and the whitespace trim that guards sending a draft.
 *
 * JavaScript's `toLowerCase` and the whitespace set of `trim` are Unicode
 * tables; they are parameters here (`lower`, `isSpace`) rather than
 * re-specified.
 */
module ChatList {
  import opened Wrappers

  /** The sidebar sections of the page. */
  datatype Section = Chats | Contacts | Settings | Profile | Search | Archive

  /** A chat as the page holds it; `isGroup` and `isArchived` may be absent. */
  datatype Chat = Chat(
    id: int,
    name: string,
    lastMessage: string,
    time: string,
    unread: int,
    avatar: string,
    isGroup: Option<bool>,
    isArchived: Option<bool>)

  /** JavaScript truthiness of an optional boolean: `undefined` is falsy. */
  predicate Truthy(flag: Option<bool>) {
    flag == Some(true)
  }

  predicate Archived(c: Chat) {
    Truthy(c.isArchived)
  }

  // ---------------------------------------------------------------------
  // Substring search (String.prototype.includes)
  // ---------------------------------------------------------------------

  /** `hay.includes(needle)`: some suffix of `hay` starts with `needle`. */
  predicate Includes(hay: string, needle: string)
    decreases |hay|
  {
    needle <= hay || (hay != [] && Includes(hay[1..], needle))
  }

  /** `needle` occurs in `hay` at offset `k`. */
  ghost predicate OccursAt(hay: string, needle: string, k: int) {
    0 <= k && k + |needle| <= |hay| && hay[k..k + |needle|] == needle
  }

  /** `Includes` agrees with the reference definition: an occurrence at some offset. */
  lemma {:induction false} IncludesIffOccurs(hay: string, needle: string)
    ensures Includes(hay, needle) <==> exists k :: OccursAt(hay, needle, k)
    decreases |hay|
  {
    if needle <= hay {
      assert OccursAt(hay, needle, 0);
    } else {
      // an occurrence at offset 0 would make needle a prefix of hay
      assert !OccursAt(hay, needle, 0) by {
        if |needle| <= |hay| {
          assert hay[0..|needle|] == hay[..|needle|];
        }
      }
      if hay != [] {
        IncludesIffOccurs(hay[1..], needle);
        if exists k :: OccursAt(hay[1..], needle, k) {
          var k :| OccursAt(hay[1..], needle, k);
          assert hay[1..][k..k + |needle|] == hay[k + 1..k + 1 + |needle|];
          assert OccursAt(hay, needle, k + 1);
        }
        if exists k :: OccursAt(hay, needle, k) {
          var k :| OccursAt(hay, needle, k);
          assert hay[1..][k - 1..k - 1 + |needle|] == hay[k..k + |needle|];
          assert OccursAt(hay[1..], needle, k - 1);
        }
      }
    }
  }

  /** Every string includes the empty string. */
  lemma IncludesEmpty(hay: string)
    ensures Includes(hay, [])
  {
  }

  // ---------------------------------------------------------------------
  // filteredChats (src/pages/Index.tsx:64-68)
  // ---------------------------------------------------------------------

  /** The callback passed to `chats.filter`: archive first, then search, else not archived. */
  predicate Keep(section: Section, query: string, lower: string -> string, c: Chat) {
    if section == Archive then Archived(c)
    else if section == Search then Includes(lower(c.name), lower(query))
    else !Archived(c)
  }

  /**
   * The page renders `filteredChats` only in the chats, search and archive
   * sections (src/pages/Index.tsx:178); the others show contacts, settings
   * or the profile instead.
   */
  predicate ListsChats(section: Section) {
    section == Chats || section == Search || section == Archive
  }

  /** `chats.filter(Keep)`: what `filteredChats` evaluates to for `section`. */
  function FilterChats(chats: seq<Chat>, section: Section, query: string, lower: string -> string): (r: seq<Chat>)
    ensures |r| <= |chats|
    ensures forall c :: c in r ==> c in chats && Keep(section, query, lower, c)
  {
    if chats == [] then []
    else
      var rest := FilterChats(chats[1..], section, query, lower);
      if Keep(section, query, lower, chats[0]) then [chats[0]] + rest else rest
  }

  /** `xs` is obtained from `ys` by deleting elements, keeping the order of the rest. */
  ghost predicate SubsequenceOf<T>(xs: seq<T>, ys: seq<T>)
    decreases |ys|
  {
    xs == [] ||
    (ys != [] &&
      ((xs[0] == ys[0] && SubsequenceOf(xs[1..], ys[1..])) || SubsequenceOf(xs, ys[1..])))
  }

  /** The filtered list keeps the relative order of `chats` and adds nothing. */
  lemma {:induction false} FilterIsSubsequence(chats: seq<Chat>, section: Section, query: string, lower: string -> string)
    ensures SubsequenceOf(FilterChats(chats, section, query, lower), chats)
  {
    if chats != [] {
      FilterIsSubsequence(chats[1..], section, query, lower);
      var rest := FilterChats(chats[1..], section, query, lower);
      if Keep(section, query, lower, chats[0]) {
        assert ([chats[0]] + rest)[1..] == rest;
      }
    }
  }

  /** Each chat occurs in the filtered list exactly as often as in `chats` when kept, never otherwise. */
  lemma {:induction false} FilterMultiplicity(chats: seq<Chat>, section: Section, query: string, lower: string -> string, c: Chat)
    ensures multiset(FilterChats(chats, section, query, lower))[c] ==
            if Keep(section, query, lower, c) then multiset(chats)[c] else 0
  {
    if chats != [] {
      FilterMultiplicity(chats[1..], section, query, lower, c);
      assert chats == [chats[0]] + chats[1..];
    }
  }

  /** A chat is shown exactly when it is in `chats` and the callback keeps it. */
  lemma FilterMembership(chats: seq<Chat>, section: Section, query: string, lower: string -> string, c: Chat)
    ensures c in FilterChats(chats, section, query, lower) <==> c in chats && Keep(section, query, lower, c)
  {
    FilterMultiplicity(chats, section, query, lower, c);
  }

  /** The archive section shows exactly the archived chats. */
  lemma ArchiveShowsArchived(chats: seq<Chat>, query: string, lower: string -> string, c: Chat)
    ensures c in FilterChats(chats, Archive, query, lower) <==> c in chats && Archived(c)
  {
    FilterMembership(chats, Archive, query, lower, c);
  }

  /** The search section matches lower-cased names against the lower-cased query, archived chats included. */
  lemma SearchMatchesNames(chats: seq<Chat>, query: string, lower: string -> string, c: Chat)
    ensures c in FilterChats(chats, Search, query, lower) <==>
            c in chats && exists k :: OccursAt(lower(c.name), lower(query), k)
  {
    FilterMembership(chats, Search, query, lower, c);
    IncludesIffOccurs(lower(c.name), lower(query));
  }

  /** With a query whose lower-case form is empty, the search section shows every chat, in order. */
  lemma {:induction false} EmptySearchShowsAll(chats: seq<Chat>, query: string, lower: string -> string)
    requires lower(query) == []
    ensures FilterChats(chats, Search, query, lower) == chats
  {
    if chats != [] {
      EmptySearchShowsAll(chats[1..], query, lower);
      IncludesEmpty(lower(chats[0].name));
    }
  }

  /** In every section other than archive and search, `filteredChats` evaluates to exactly the chats that are not archived. */
  lemma OtherSectionsShowActive(chats: seq<Chat>, section: Section, query: string, lower: string -> string, c: Chat)
    requires section != Archive && section != Search
    ensures c in FilterChats(chats, section, query, lower) <==> c in chats && !Archived(c)
  {
    FilterMembership(chats, section, query, lower, c);
  }

  /** The archive list and the chats list split `chats` between them: every chat lands in exactly one of the two. */
  lemma {:induction false} ArchiveAndChatsPartition(chats: seq<Chat>, query: string, lower: string -> string)
    ensures multiset(FilterChats(chats, Archive, query, lower)) + multiset(FilterChats(chats, Chats, query, lower)) ==
            multiset(chats)
    ensures |FilterChats(chats, Archive, query, lower)| + |FilterChats(chats, Chats, query, lower)| == |chats|
  {
    if chats != [] {
      ArchiveAndChatsPartition(chats[1..], query, lower);
      assert chats == [chats[0]] + chats[1..];
      assert multiset(chats) == multiset{chats[0]} + multiset(chats[1..]);
    }
  }

  // ---------------------------------------------------------------------
  // chats.find(c => c.id === activeChat) (src/pages/Index.tsx:286, 290)
  // ---------------------------------------------------------------------

  /** `chats.find(c => c.id === id)`: the first chat with that id, or nothing. */
  function FindChat(chats: seq<Chat>, id: int): (r: Option<Chat>)
    ensures r.None? <==> forall k :: 0 <= k < |chats| ==> chats[k].id != id
    ensures r.Some? ==> exists k :: 0 <= k < |chats| && chats[k] == r.value && r.value.id == id &&
                                    forall j :: 0 <= j < k ==> chats[j].id != id
  {
    if chats == [] then None
    else if chats[0].id == id then Some(chats[0])
    else
      var r := FindChat(chats[1..], id);
      assert forall k :: 0 <= k < |chats[1..]| ==> chats[1..][k] == chats[k + 1];
      r
  }

  /** Any chat found is the one at the first index carrying the id. */
  lemma FindChatIsFirst(chats: seq<Chat>, id: int, k: int)
    requires 0 <= k < |chats| && chats[k].id == id
    requires forall j :: 0 <= j < k ==> chats[j].id != id
    ensures FindChat(chats, id) == Some(chats[k])
  {
  }

  // ---------------------------------------------------------------------
  // String.prototype.trim (src/pages/Index.tsx:71)
  // ---------------------------------------------------------------------

  function TrimStart(s: string, isSpace: char -> bool): string
  {
    if s != [] && isSpace(s[0]) then TrimStart(s[1..], isSpace) else s
  }

  function TrimEnd(s: string, isSpace: char -> bool): string
  {
    if s != [] && isSpace(s[|s| - 1]) then TrimEnd(s[..|s| - 1], isSpace) else s
  }

  /** `s.trim()`: `s` without its leading and trailing whitespace. */
  function Trim(s: string, isSpace: char -> bool): string
  {
    TrimEnd(TrimStart(s, isSpace), isSpace)
  }

  ghost predicate AllSpace(s: string, isSpace: char -> bool) {
    forall i :: 0 <= i < |s| ==> isSpace(s[i])
  }

  lemma {:induction false} TrimStartEmpty(s: string, isSpace: char -> bool)
    ensures TrimStart(s, isSpace) == [] <==> AllSpace(s, isSpace)
  {
    if s != [] && isSpace(s[0]) {
      TrimStartEmpty(s[1..], isSpace);
      assert forall i :: 1 <= i < |s| ==> s[i] == s[1..][i - 1];
    }
  }

  /** TrimStart leaves a string that is empty or starts with a non-space. */
  lemma {:induction false} TrimStartShape(s: string, isSpace: char -> bool)
    ensures TrimStart(s, isSpace) == [] || !isSpace(TrimStart(s, isSpace)[0])
  {
    if s != [] && isSpace(s[0]) {
      TrimStartShape(s[1..], isSpace);
    }
  }

  /** TrimEnd cannot empty a string whose first character is not whitespace. */
  lemma {:induction false} TrimEndKeepsNonSpaceHead(s: string, isSpace: char -> bool)
    requires s != [] && !isSpace(s[0])
    ensures TrimEnd(s, isSpace) != []
  {
    if isSpace(s[|s| - 1]) {
      assert |s| > 1;
      TrimEndKeepsNonSpaceHead(s[..|s| - 1], isSpace);
    }
  }

  /** The trimmed draft is empty exactly when every character of the draft is whitespace. */
  lemma TrimEmptyIffAllSpace(s: string, isSpace: char -> bool)
    ensures Trim(s, isSpace) == [] <==> AllSpace(s, isSpace)
  {
    TrimStartEmpty(s, isSpace);
    TrimStartShape(s, isSpace);
    var t := TrimStart(s, isSpace);
    if t != [] {
      TrimEndKeepsNonSpaceHead(t, isSpace);
    }
  }
}
