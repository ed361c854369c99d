/** The chat store: a relational database with a `messages` table
    (autoincrement ids) and a `chats` table keyed by chat id, reached
    through a handle that is null until `init` opens it. Each table is a
    sequence of rows in rowid order; `CURRENT_TIMESTAMP` is the clock
    reading passed to each write, as an integer number of seconds. */
module ChatDatabase {
  import opened Wrappers
  import Seqs
  import StableSort

  datatype Role = User | Bot

  /** A row of `messages (id, role, text, chat_id, timestamp)`. */
  datatype MessageRow = MessageRow(id: nat, role: Role, text: string, chatId: string, timestamp: int)

  /** A row of `chats (id, title, last_message, timestamp)`; `last_message` is nullable. */
  datatype ChatRow = ChatRow(id: string, title: string, lastMessage: Option<string>, timestamp: int)

  /** The `Message` objects handed to the app. */
  datatype Message = Message(id: nat, role: Role, text: string, chatId: string, timestamp: int)

  /** The `Chat` objects handed to the app. */
  datatype Chat = Chat(id: string, title: string, lastMessage: string, timestamp: int)

  /** `NotInitialized` is the error thrown, with its message, while the
      handle is null; `OpenFailed` is the open's own error, rethrown. */
  datatype DbError = NotInitialized(message: string) | OpenFailed

  /** The message of the error every operation throws on a null handle. */
  const NotInitializedMessage := "Database not initialized"

  /** Pieces of the message text kept in a title, and the title's length before "...". */
  const TitleWords: nat := 4
  const TitleLength: nat := 30
  /** The default `limit` of `getRecentChats`. */
  const DefaultRecentChats: int := 5

  // ---------------------------------------------------------------------
  // Chat titles

  /** `s.split(' ')`: the pieces between single spaces; never empty. */
  function Split(s: string): (pieces: seq<string>)
    ensures |pieces| >= 1
    ensures forall i :: 0 <= i < |pieces| ==> ' ' !in pieces[i]
  {
    if s == [] then [""]
    else if s[0] == ' ' then [""] + Split(s[1..])
    else
      var rest := Split(s[1..]);
      [[s[0]] + rest[0]] + rest[1..]
  }

  /** `pieces.join(' ')`. */
  function Join(pieces: seq<string>): string {
    if |pieces| == 0 then ""
    else if |pieces| == 1 then pieces[0]
    else pieces[0] + " " + Join(pieces[1..])
  }

  /** `s.slice(0, n)`. */
  function Take<T>(s: seq<T>, n: nat): seq<T> {
    if n <= |s| then s[..n] else s
  }

  /** The position of the `k`-th space of `s`, or `|s|` when `s` has fewer. */
  function NthSpace(s: string, k: nat): (i: nat)
    requires k >= 1
    ensures i <= |s|
  {
    if s == [] then 0
    else if s[0] == ' ' then (if k == 1 then 0 else 1 + NthSpace(s[1..], k - 1))
    else 1 + NthSpace(s[1..], k)
  }

  lemma {:induction false} JoinConsHead(c: char, p: string, q: seq<string>)
    ensures Join([[c] + p] + q) == [c] + Join([p] + q)
  {
    if q != [] {
      assert ([[c] + p] + q)[1..] == q;
      assert ([p] + q)[1..] == q;
    }
  }

  /** Splitting at spaces and joining with spaces gives back the text. */
  lemma {:induction false} SplitJoinRoundTrip(s: string)
    ensures Join(Split(s)) == s
  {
    if s != [] {
      var rest := Split(s[1..]);
      SplitJoinRoundTrip(s[1..]);
      if s[0] == ' ' {
        assert ([""] + rest)[1..] == rest;
      } else {
        JoinConsHead(s[0], rest[0], rest[1..]);
        assert [rest[0]] + rest[1..] == rest;
      }
    }
  }

  /** The step of `FirstWordsArePrefix` past a leading space. */
  lemma {:induction false} FirstWordsAfterSpace(s: string, k: nat)
    requires s != [] && s[0] == ' ' && k > 1
    requires Join(Take(Split(s[1..]), k - 1)) == s[1..][..NthSpace(s[1..], k - 1)]
    ensures Join(Take(Split(s), k)) == s[..NthSpace(s, k)]
  {
    var t := Take(Split(s[1..]), k - 1);
    assert Take(Split(s), k) == [""] + t;
    assert ([""] + t)[1..] == t;
    assert s[..1 + NthSpace(s[1..], k - 1)] == " " + s[1..][..NthSpace(s[1..], k - 1)];
  }

  /** The step of `FirstWordsArePrefix` past a leading character other than a space. */
  lemma {:induction false} FirstWordsAfterChar(s: string, k: nat)
    requires s != [] && s[0] != ' ' && k >= 1
    requires Join(Take(Split(s[1..]), k)) == s[1..][..NthSpace(s[1..], k)]
    ensures Join(Take(Split(s), k)) == s[..NthSpace(s, k)]
  {
    var rest := Split(s[1..]);
    var q := Take(rest[1..], k - 1);
    assert Take(Split(s), k) == [[s[0]] + rest[0]] + q;
    assert Take(rest, k) == [rest[0]] + q;
    JoinConsHead(s[0], rest[0], q);
    assert s[..1 + NthSpace(s[1..], k)] == [s[0]] + s[1..][..NthSpace(s[1..], k)];
  }

  /** The first `k` pieces, joined again, are the text up to its `k`-th space. */
  lemma {:induction false} FirstWordsArePrefix(s: string, k: nat)
    requires k >= 1
    ensures Join(Take(Split(s), k)) == s[..NthSpace(s, k)]
  {
    if s != [] {
      if s[0] == ' ' {
        if k > 1 {
          FirstWordsArePrefix(s[1..], k - 1);
          FirstWordsAfterSpace(s, k);
        }
      } else {
        FirstWordsArePrefix(s[1..], k);
        FirstWordsAfterChar(s, k);
      }
    }
  }

  /** `generateChatTitle(text)`: the first four space-separated pieces,
      cut to 30 characters followed by "..." when longer. The title is
      the text up to its fourth space, or the first 30 characters of the
      text and "...". */
  function GenerateChatTitle(text: string): (title: string)
    ensures |title| <= TitleLength + 3
    ensures NthSpace(text, TitleWords) <= TitleLength ==> title == text[..NthSpace(text, TitleWords)]
    ensures NthSpace(text, TitleWords) > TitleLength ==> title == text[..TitleLength] + "..."
  {
    var words := Join(Take(Split(text), TitleWords));
    FirstWordsArePrefix(text, TitleWords);
    if |words| > TitleLength then words[..TitleLength] + "..." else words
  }

  // ---------------------------------------------------------------------
  // The engine's treatment of rows

  function InChat(chatId: string): MessageRow -> bool {
    (m: MessageRow) => m.chatId == chatId
  }

  function NotInChat(chatId: string): MessageRow -> bool {
    (m: MessageRow) => m.chatId != chatId
  }

  function ChatIdIs(id: string): ChatRow -> bool {
    (c: ChatRow) => c.id == id
  }

  function ChatIdIsNot(id: string): ChatRow -> bool {
    (c: ChatRow) => c.id != id
  }

  /** The sort key of `ORDER BY timestamp ASC`. */
  function Earliness(m: MessageRow): int {
    -m.timestamp
  }

  /** The sort key of `ORDER BY timestamp DESC`. */
  function ChatTimestamp(c: ChatRow): int {
    c.timestamp
  }

  predicate IdBefore(a: MessageRow, b: MessageRow) {
    a.id < b.id
  }

  predicate DistinctChatIds(a: ChatRow, b: ChatRow) {
    a.id != b.id
  }

  /** `INSERT OR REPLACE`: the row with the same key is deleted and the new
      row is inserted behind the others. */
  function Upsert(rows: seq<ChatRow>, row: ChatRow): seq<ChatRow> {
    Seqs.Filter(rows, ChatIdIsNot(row.id)) + [row]
  }

  /** `SELECT * FROM messages WHERE chat_id = ? ORDER BY timestamp ASC`,
      rows of equal timestamp in rowid order. */
  function SelectMessages(rows: seq<MessageRow>, chatId: string): seq<MessageRow> {
    StableSort.SortDesc(Seqs.Filter(rows, InChat(chatId)), Earliness)
  }

  /** `LIMIT n`; a negative limit is no limit. */
  function Limit<T>(s: seq<T>, n: int): seq<T> {
    if n < 0 || n >= |s| then s else s[..n]
  }

  /** `SELECT * FROM chats ORDER BY timestamp DESC LIMIT ?`. */
  function SelectRecentChats(rows: seq<ChatRow>, limit: int): seq<ChatRow> {
    Limit(StableSort.SortDesc(rows, ChatTimestamp), limit)
  }

  function ToMessage(row: MessageRow): Message {
    Message(row.id, row.role, row.text, row.chatId, row.timestamp)
  }

  /** A row as a `Chat`; a null `last_message` becomes "". */
  function ToChat(row: ChatRow): (c: Chat)
    ensures row.lastMessage.None? ==> c.lastMessage == ""
    ensures row.lastMessage.Some? ==> c.lastMessage == row.lastMessage.value
    ensures c.id == row.id && c.title == row.title && c.timestamp == row.timestamp
  {
    Chat(row.id, row.title, if row.lastMessage.Some? then row.lastMessage.value else "", row.timestamp)
  }

  /** After an upsert the table has exactly one row with the key, the new
      one; every row with another key is still there, in its order. */
  lemma UpsertReplaces(rows: seq<ChatRow>, row: ChatRow)
    ensures Seqs.Filter(Upsert(rows, row), ChatIdIs(row.id)) == [row]
    ensures Seqs.Filter(Upsert(rows, row), ChatIdIsNot(row.id)) == Seqs.Filter(rows, ChatIdIsNot(row.id))
    ensures forall c :: c in rows && c.id != row.id ==> c in Upsert(rows, row)
  {
    var kept := Seqs.Filter(rows, ChatIdIsNot(row.id));
    Seqs.FilterOutputPasses(rows, ChatIdIsNot(row.id));
    Seqs.FilterConcat(kept, [row], ChatIdIs(row.id));
    Seqs.FilterNonePass(kept, ChatIdIs(row.id));
    Seqs.FilterConcat(kept, [row], ChatIdIsNot(row.id));
    Seqs.FilterAllPass(kept, ChatIdIsNot(row.id));
    Seqs.FilterMembers(rows, ChatIdIsNot(row.id));
  }

  lemma UpsertKeepsKeysUnique(rows: seq<ChatRow>, row: ChatRow)
    requires Seqs.Pairwise(rows, DistinctChatIds)
    ensures Seqs.Pairwise(Upsert(rows, row), DistinctChatIds)
  {
    var kept := Seqs.Filter(rows, ChatIdIsNot(row.id));
    Seqs.FilterKeepsPairwise(rows, ChatIdIsNot(row.id), DistinctChatIds);
    Seqs.FilterOutputPasses(rows, ChatIdIsNot(row.id));
    var u := kept + [row];
    forall i, j | 0 <= i < j < |u| ensures DistinctChatIds(u[i], u[j]) {
      if j < |kept| {
        assert u[i] == kept[i] && u[j] == kept[j];
      } else {
        assert u[i] == kept[i];
      }
    }
  }

  /** `getMessages` selects exactly the rows of the chat, each as often as
      it is stored, in non-decreasing timestamp order. */
  lemma SelectMessagesCorrect(rows: seq<MessageRow>, chatId: string)
    ensures multiset(SelectMessages(rows, chatId)) == multiset(Seqs.Filter(rows, InChat(chatId)))
    ensures forall m :: m in SelectMessages(rows, chatId) <==> m in rows && m.chatId == chatId
    ensures forall i, j :: 0 <= i < j < |SelectMessages(rows, chatId)| ==>
      SelectMessages(rows, chatId)[i].timestamp <= SelectMessages(rows, chatId)[j].timestamp
  {
    var chosen := Seqs.Filter(rows, InChat(chatId));
    StableSort.SortMultiset(chosen, Earliness);
    StableSort.SortSorted(chosen, Earliness);
    Seqs.FilterMembers(rows, InChat(chatId));
    forall m ensures m in SelectMessages(rows, chatId) <==> m in chosen {
      assert m in SelectMessages(rows, chatId) <==> m in multiset(SelectMessages(rows, chatId));
      assert m in chosen <==> m in multiset(chosen);
    }
  }

  /** `getRecentChats(limit)` returns at most `limit` rows (all of them for
      a negative limit), newest first, and every row it leaves out is no
      newer than every row it returns. */
  lemma SelectRecentChatsCorrect(rows: seq<ChatRow>, limit: int)
    ensures limit >= 0 ==> |SelectRecentChats(rows, limit)| == if limit < |rows| then limit else |rows|
    ensures limit < 0 ==> |SelectRecentChats(rows, limit)| == |rows|
    ensures forall c :: c in SelectRecentChats(rows, limit) ==> c in rows
    ensures multiset(SelectRecentChats(rows, limit)) <= multiset(rows)
    ensures limit < 0 || limit >= |rows| ==> multiset(SelectRecentChats(rows, limit)) == multiset(rows)
    ensures forall i, j :: 0 <= i < j < |SelectRecentChats(rows, limit)| ==>
      SelectRecentChats(rows, limit)[i].timestamp >= SelectRecentChats(rows, limit)[j].timestamp
    ensures forall c, i :: c in rows && c !in SelectRecentChats(rows, limit) && 0 <= i < |SelectRecentChats(rows, limit)| ==>
      c.timestamp <= SelectRecentChats(rows, limit)[i].timestamp
  {
    var sorted := StableSort.SortDesc(rows, ChatTimestamp);
    var sel := SelectRecentChats(rows, limit);
    StableSort.SortMultiset(rows, ChatTimestamp);
    StableSort.SortLength(rows, ChatTimestamp);
    StableSort.SortSorted(rows, ChatTimestamp);
    assert sel == sorted[..|sel|];
    assert sorted == sel + sorted[|sel|..];
    forall c | c in sel ensures c in rows {
      assert c in multiset(sorted);
    }
    forall c, i | c in rows && c !in sel && 0 <= i < |sel| ensures c.timestamp <= sel[i].timestamp {
      assert c in multiset(sorted);
      var p :| 0 <= p < |sorted| && sorted[p] == c;
      assert forall q :: 0 <= q < |sel| ==> sel[q] == sorted[q];
      assert p >= |sel|;
      assert ChatTimestamp(sorted[i]) >= ChatTimestamp(sorted[p]);
    }
  }

  /** A chat whose new row is strictly newer than every other row heads
      `getRecentChats(limit)` for every limit other than 0, and is the
      single chat of `getRecentChats(1)`. */
  lemma SavedChatIsMostRecent(rows: seq<ChatRow>, row: ChatRow, limit: int)
    requires forall c :: c in rows ==> c.timestamp < row.timestamp
    ensures limit != 0 ==> |SelectRecentChats(Upsert(rows, row), limit)| >= 1 && SelectRecentChats(Upsert(rows, row), limit)[0] == row
    ensures SelectRecentChats(Upsert(rows, row), 1) == [row]
  {
    var u := Upsert(rows, row);
    var kept := Seqs.Filter(rows, ChatIdIsNot(row.id));
    Seqs.FilterMembers(rows, ChatIdIsNot(row.id));
    StableSort.SortHeadIsFirstMax(u, ChatTimestamp);
    StableSort.SortLength(u, ChatTimestamp);
    var m := StableSort.FirstMaxIndex(u, ChatTimestamp);
    assert forall q :: 0 <= q < |kept| ==> u[q] == kept[q] && kept[q] in kept;
    assert m == |u| - 1;
  }

  class SimpleDatabase {
    /** `db !== null`. */
    var connected: bool
    var messages: seq<MessageRow>
    var chats: seq<ChatRow>
    /** The autoincrement sequence: above every message id ever issued. */
    var nextMessageId: nat

    /** Message ids strictly increase in rowid order and stay below the
        sequence; chat ids are a primary key. */
    ghost predicate Valid()
      reads this
    {
      && Seqs.Pairwise(messages, IdBefore)
      && (forall i :: 0 <= i < |messages| ==> messages[i].id < nextMessageId)
      && Seqs.Pairwise(chats, DistinctChatIds)
    }

    /** `new SimpleDatabase()` over the tables already in the database file. */
    constructor (storedMessages: seq<MessageRow>, storedChats: seq<ChatRow>, storedSequence: nat)
      requires Seqs.Pairwise(storedMessages, IdBefore)
      requires forall i :: 0 <= i < |storedMessages| ==> storedMessages[i].id < storedSequence
      requires Seqs.Pairwise(storedChats, DistinctChatIds)
      ensures Valid() && !connected
      ensures messages == storedMessages && chats == storedChats && nextMessageId == storedSequence
    {
      connected := false;
      messages, chats, nextMessageId := storedMessages, storedChats, storedSequence;
    }

    /** `init()`: opens the database; the tables already exist or are
        created empty, so their contents do not change. A failed open is
        rethrown and leaves the handle as it was. */
    method Init(opens: bool) returns (r: Result<(), DbError>)
      requires Valid()
      modifies this
      ensures Valid()
      ensures opens ==> r == Success(()) && connected
      ensures !opens ==> r == Failure(OpenFailed) && connected == old(connected)
      ensures messages == old(messages) && chats == old(chats) && nextMessageId == old(nextMessageId)
    {
      if !opens {
        return Failure(OpenFailed);
      }
      connected := true;
      r := Success(());
    }

    /** `saveMessage(role, text, chatId)`: inserts one message row with the
        next id, stamped `insertedAt`, then upserts the chat's row with the
        title built from the text and the text as last message, stamped
        `upsertedAt`. The two statements read the clock separately, so the
        two stamps may differ. */
    method SaveMessage(role: Role, text: string, chatId: string, insertedAt: int, upsertedAt: int) returns (r: Result<(), DbError>)
      requires Valid()
      modifies this
      ensures Valid()
      ensures !old(connected) ==> r == Failure(NotInitialized(NotInitializedMessage)) && unchanged(this)
      ensures old(connected) ==>
        && r == Success(())
        && connected
        && messages == old(messages) + [MessageRow(old(nextMessageId), role, text, chatId, insertedAt)]
        && nextMessageId == old(nextMessageId) + 1
        && chats == Upsert(old(chats), ChatRow(chatId, GenerateChatTitle(text), Some(text), upsertedAt))
    {
      if !connected {
        return Failure(NotInitialized(NotInitializedMessage));
      }
      messages := messages + [MessageRow(nextMessageId, role, text, chatId, insertedAt)];
      nextMessageId := nextMessageId + 1;
      var row := ChatRow(chatId, GenerateChatTitle(text), Some(text), upsertedAt);
      UpsertKeepsKeysUnique(chats, row);
      chats := Upsert(chats, row);
      r := Success(());
    }

    /** `getMessages(chatId)`: the chat's messages, oldest first. */
    method GetMessages(chatId: string) returns (r: Result<seq<Message>, DbError>)
      ensures !connected ==> r == Failure(NotInitialized(NotInitializedMessage))
      ensures connected ==> r.Success?
      ensures connected ==> |r.value| == |SelectMessages(messages, chatId)|
      ensures connected ==> forall i :: 0 <= i < |r.value| ==> r.value[i] == ToMessage(SelectMessages(messages, chatId)[i])
      ensures connected ==> forall i :: 0 <= i < |r.value| ==> r.value[i].chatId == chatId
      ensures connected ==> forall i, j :: 0 <= i < j < |r.value| ==> r.value[i].timestamp <= r.value[j].timestamp
      ensures connected ==> forall row :: row in messages && row.chatId == chatId ==> ToMessage(row) in r.value
    {
      if !connected {
        return Failure(NotInitialized(NotInitializedMessage));
      }
      var rows := SelectMessages(messages, chatId);
      SelectMessagesCorrect(messages, chatId);
      var out: seq<Message> := [];
      for i := 0 to |rows|
        invariant |out| == i
        invariant forall k :: 0 <= k < i ==> out[k] == ToMessage(rows[k])
      {
        out := out + [ToMessage(rows[i])];
      }
      forall row | row in messages && row.chatId == chatId ensures ToMessage(row) in out {
        var k :| 0 <= k < |rows| && rows[k] == row;
        assert out[k] == ToMessage(row);
      }
      r := Success(out);
    }

    /** `getRecentChats(limit)`: at most `limit` chats, newest first. */
    method GetRecentChats(limit: int := DefaultRecentChats) returns (r: Result<seq<Chat>, DbError>)
      ensures !connected ==> r == Failure(NotInitialized(NotInitializedMessage))
      ensures connected ==> r.Success?
      ensures connected ==> |r.value| == |SelectRecentChats(chats, limit)|
      ensures connected ==> forall i :: 0 <= i < |r.value| ==> r.value[i] == ToChat(SelectRecentChats(chats, limit)[i])
      ensures connected && limit >= 0 ==> |r.value| <= limit
      ensures connected ==> forall i, j :: 0 <= i < j < |r.value| ==> r.value[i].timestamp >= r.value[j].timestamp
    {
      if !connected {
        return Failure(NotInitialized(NotInitializedMessage));
      }
      var rows := SelectRecentChats(chats, limit);
      assert && (limit >= 0 ==> |rows| <= limit)
             && (forall i, j :: 0 <= i < j < |rows| ==> rows[i].timestamp >= rows[j].timestamp) by {
        SelectRecentChatsCorrect(chats, limit);
      }
      var out: seq<Chat> := [];
      for i := 0 to |rows|
        invariant |out| == i
        invariant forall k :: 0 <= k < i ==> out[k] == ToChat(rows[k])
      {
        out := out + [ToChat(rows[i])];
      }
      r := Success(out);
    }

    /** `deleteChat(chatId)`: deletes the chat's messages, then its row. */
    method DeleteChat(chatId: string) returns (r: Result<(), DbError>)
      requires Valid()
      modifies this
      ensures Valid()
      ensures !old(connected) ==> r == Failure(NotInitialized(NotInitializedMessage)) && unchanged(this)
      ensures old(connected) ==>
        && r == Success(())
        && connected
        && messages == Seqs.Filter(old(messages), NotInChat(chatId))
        && chats == Seqs.Filter(old(chats), ChatIdIsNot(chatId))
        && nextMessageId == old(nextMessageId)
      ensures old(connected) ==> forall m :: m in messages <==> m in old(messages) && m.chatId != chatId
      ensures old(connected) ==> forall c :: c in chats <==> c in old(chats) && c.id != chatId
    {
      if !connected {
        return Failure(NotInitialized(NotInitializedMessage));
      }
      Seqs.FilterMembers(messages, NotInChat(chatId));
      Seqs.FilterKeepsPairwise(messages, NotInChat(chatId), IdBefore);
      Seqs.FilterMembers(chats, ChatIdIsNot(chatId));
      Seqs.FilterKeepsPairwise(chats, ChatIdIsNot(chatId), DistinctChatIds);
      var remaining := Seqs.Filter(messages, NotInChat(chatId));
      forall i | 0 <= i < |remaining| ensures remaining[i].id < nextMessageId {
        assert remaining[i] in remaining;
      }
      messages := remaining;
      chats := Seqs.Filter(chats, ChatIdIsNot(chatId));
      r := Success(());
    }
  }
}
