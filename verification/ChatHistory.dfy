/** Scroll-back: pages of a conversation by id cursor, while new messages keep arriving. */
module ChatHistory {
  import opened Common
  import opened Chat
  import opened Sorting

  predicate InPage(row: Row, conversation: nat, before: Option<nat>) {
    row.conversation == conversation && (before.None? || row.id < before.value)
  }

  /** WHERE conversation_id = ... AND (before IS NULL OR id < before) */
  function Where(rows: seq<Row>, conversation: nat, before: Option<nat>): seq<Row> {
    if rows == [] then []
    else
      var n := |rows| - 1;
      Where(rows[..n], conversation, before) + if InPage(rows[n], conversation, before) then [rows[n]] else []
  }

  function NewestFirst(): (Row, Row) -> bool {
    (a: Row, b: Row) => a.id >= b.id
  }

  /** ORDER BY id DESC */
  function Newest(rows: seq<Row>, conversation: nat, before: Option<nat>): seq<Row> {
    Sort(Where(rows, conversation, before), NewestFirst())
  }

  /** history: one page. */
  function Page(rows: seq<Row>, conversation: nat, before: Option<nat>, limit: nat): seq<Row> {
    var newest := Newest(rows, conversation, before);
    if limit < |newest| then newest[..limit] else newest
  }

  ghost predicate UniqueIds(rows: seq<Row>) {
    forall i, j :: 0 <= i < j < |rows| ==> rows[i].id != rows[j].id
  }

  predicate Descending(rows: seq<Row>) {
    forall i, j :: 0 <= i < j < |rows| ==> rows[i].id > rows[j].id
  }

  lemma {:induction false} WhereFacts(rows: seq<Row>, conversation: nat, before: Option<nat>)
    ensures forall x :: x in Where(rows, conversation, before) <==> x in rows && InPage(x, conversation, before)
    ensures UniqueIds(rows) ==> UniqueIds(Where(rows, conversation, before))
  {
    if rows != [] {
      var n := |rows| - 1;
      WhereFacts(rows[..n], conversation, before);
      assert rows == rows[..n] + [rows[n]];
      var rest := Where(rows[..n], conversation, before);
      if UniqueIds(rows) {
        forall i | 0 <= i < |rest| ensures rest[i].id != rows[n].id {
          assert rest[i] in rows[..n];
        }
      }
    }
  }

  /** The conversation's messages below the cursor, each once, newest first. */
  lemma NewestFacts(rows: seq<Row>, conversation: nat, before: Option<nat>)
    requires UniqueIds(rows)
    ensures Descending(Newest(rows, conversation, before))
    ensures forall x :: x in Newest(rows, conversation, before) <==> x in rows && InPage(x, conversation, before)
  {
    var found := Where(rows, conversation, before);
    WhereFacts(rows, conversation, before);
    SortSorts(found, NewestFirst());
    SamePairs(found, Newest(rows, conversation, before));
    var newest := Newest(rows, conversation, before);
    forall i, j | 0 <= i < j < |newest| ensures newest[i].id > newest[j].id {
      assert newest[i] in found && newest[j] in found;
    }
  }

  /**
   The page holds the newest messages below the cursor: any left out is older than all on it, and the
   page is full.
   */
  lemma PageIsNewest(rows: seq<Row>, conversation: nat, before: Option<nat>, limit: nat)
    requires UniqueIds(rows)
    ensures var page := Page(rows, conversation, before, limit);
      && |page| <= limit && (forall i, j :: 0 <= i < j < |page| ==> page[i].id > page[j].id)
      && (forall row <- page ::
            row in rows && row.conversation == conversation && (before.Some? ==> row.id < before.value))
      && (forall row <- rows ::
            row.conversation == conversation && (before.Some? ==> row.id < before.value) && row !in page
            ==> |page| == limit && forall shown <- page :: shown.id > row.id)
  {
    NewestFacts(rows, conversation, before);
    var newest, page := Newest(rows, conversation, before), Page(rows, conversation, before, limit);
    forall row <- page ensures row in rows && InPage(row, conversation, before) {
      assert row in newest;
    }
    forall row <- rows | InPage(row, conversation, before) && row !in page
      ensures |page| == limit && forall shown <- page :: shown.id > row.id
    {
      assert row in newest;
      var j :| 0 <= j < |newest| && newest[j] == row;
      forall i | 0 <= i < |page| ensures newest[i] != row {
        assert newest[i] == page[i] && page[i] in page;
      }
      forall shown <- page ensures shown.id > row.id {
        var i :| 0 <= i < |page| && page[i] == shown;
        assert newest[i] == shown;
      }
    }
  }

  // --- following the cursor ----------------------------------------------------------------------

  /** What the table may become: new rows, with ids above all those of their conversation before. */
  ghost predicate Later(was: seq<Row>, now: seq<Row>) {
    && was <= now
    && forall row <- now[|was|..], o <- was :: row.conversation == o.conversation ==> o.id < row.id
  }

  lemma {:induction false} WhereAppend(a: seq<Row>, b: seq<Row>, conversation: nat, before: Option<nat>)
    ensures Where(a + b, conversation, before) == Where(a, conversation, before) + Where(b, conversation, before)
  {
    if b == [] {
      assert a + b == a;
    } else {
      var n := |b| - 1;
      assert (a + b)[..|a + b| - 1] == a + b[..n];
      WhereAppend(a, b[..n], conversation, before);
    }
  }

  /** Below a message that was there, new ones change nothing. */
  lemma BelowCursor(was: seq<Row>, now: seq<Row>, cursor: Row)
    requires Later(was, now) && cursor in was
    ensures Where(now, cursor.conversation, Some(cursor.id)) == Where(was, cursor.conversation, Some(cursor.id))
  {
    var more := now[|was|..];
    assert now == was + more;
    WhereAppend(was, more, cursor.conversation, Some(cursor.id));
    NoneWhere(more, cursor.conversation, Some(cursor.id));
  }

  lemma {:induction false} NoneWhere(rows: seq<Row>, conversation: nat, before: Option<nat>)
    requires forall row <- rows :: !InPage(row, conversation, before)
    ensures Where(rows, conversation, before) == []
  {
    if rows != [] {
      NoneWhere(rows[..|rows| - 1], conversation, before);
    }
  }

  lemma SameBelow(rows: seq<Row>, conversation: nat, m: nat, x: Row)
    requires UniqueIds(rows) && 0 < m <= |Newest(rows, conversation, None)|
    ensures var all := Newest(rows, conversation, None);
      x in Newest(rows, conversation, Some(all[m - 1].id)) <==> x in all[m..]
  {
    var all := Newest(rows, conversation, None);
    NewestFacts(rows, conversation, None);
    NewestFacts(rows, conversation, Some(all[m - 1].id));
    if x in all {
      var j :| 0 <= j < |all| && all[j] == x;
      assert j >= m ==> all[m..][j - m] == x;
    }
  }

  /** Asking below the m-th newest message gives the ones after it. */
  lemma RestBelow(rows: seq<Row>, conversation: nat, m: nat)
    requires UniqueIds(rows) && 0 < m <= |Newest(rows, conversation, None)|
    ensures var all := Newest(rows, conversation, None);
      Newest(rows, conversation, Some(all[m - 1].id)) == all[m..]
  {
    var all := Newest(rows, conversation, None);
    var below := Newest(rows, conversation, Some(all[m - 1].id));
    forall x ensures x in below <==> x in all[m..] {
      SameBelow(rows, conversation, m, x);
    }
    NewestFacts(rows, conversation, None);
    NewestFacts(rows, conversation, Some(all[m - 1].id));
    SameElements(below, all[m..]);
    OrderedUnique(below, all[m..], NewestFirst());
  }

  lemma RestAgain(was: seq<Row>, now: seq<Row>, conversation: nat, m: nat)
    requires UniqueIds(was) && Later(was, now) && 0 < m <= |Newest(was, conversation, None)|
    ensures var all := Newest(was, conversation, None); Newest(now, conversation, Some(all[m - 1].id)) == all[m..]
  {
    var all := Newest(was, conversation, None);
    NewestFacts(was, conversation, None);
    RestBelow(was, conversation, m);
    assert all[m - 1] in all;
    BelowCursor(was, now, all[m - 1]);
  }

  lemma CutRest<T>(all: seq<T>, m: nat, limit: nat)
    requires m <= |all|
    ensures (if limit < |all[m..]| then all[m..][..limit] else all[m..])
         == if m + limit < |all| then all[m..m + limit] else all[m..]
  {
  }

  /** One request of a client that has the m newest messages already. */
  lemma NextPage(was: seq<Row>, now: seq<Row>, conversation: nat, m: nat, limit: nat)
    requires UniqueIds(was) && Later(was, now) && m <= |Newest(was, conversation, None)| && (m == 0 ==> now == was)
    ensures var all := Newest(was, conversation, None);
      var before := if m == 0 then None else Some(all[m - 1].id);
      Page(now, conversation, before, limit) == if m + limit < |all| then all[m..m + limit] else all[m..]
  {
    var all := Newest(was, conversation, None);
    if m > 0 {
      RestAgain(was, now, conversation, m);
    } else {
      assert all[m..] == all;
    }
    CutRest(all, m, limit);
  }

  /** The table as each of a client's requests meets it. */
  ghost predicate Growing(tables: nat -> seq<Row>) {
    UniqueIds(tables(0)) && forall k: nat :: LaterAt(tables, k)
  }

  ghost predicate LaterAt(tables: nat -> seq<Row>, k: nat) {
    Later(tables(0), tables(k))
  }

  /** The id the next page is asked below. */
  function Cursor(messages: seq<Row>): Option<nat> {
    if messages == [] then None else Some(messages[|messages| - 1].id)
  }

  /** The k-th request, by a client that has `messages`. */
  lemma NextRequest(tables: nat -> seq<Row>, k: nat, conversation: nat, messages: seq<Row>, limit: nat)
    requires Growing(tables) && limit >= 1 && messages <= Newest(tables(0), conversation, None)
      && (messages == [] ==> k == 0)
    ensures var all := Newest(tables(0), conversation, None);
      var page := Page(tables(k), conversation, Cursor(messages), limit);
      messages + page <= all && (page == [] ==> messages == all)
  {
    assert LaterAt(tables, k);
    Request(tables(0), tables(k), conversation, messages, limit);
  }

  lemma SameCursor(all: seq<Row>, messages: seq<Row>)
    requires messages <= all
    ensures Cursor(messages) == if |messages| == 0 then None else Some(all[|messages| - 1].id)
  {
    if messages != [] {
      assert messages[|messages| - 1] == all[|messages| - 1];
    }
  }

  lemma Request(first: seq<Row>, now: seq<Row>, conversation: nat, messages: seq<Row>, limit: nat)
    requires UniqueIds(first) && Later(first, now) && limit >= 1 && messages <= Newest(first, conversation, None)
    requires messages == [] ==> now == first
    ensures var all := Newest(first, conversation, None);
      var page := Page(now, conversation, Cursor(messages), limit);
      messages + page <= all && (page == [] ==> messages == all)
  {
    var all := Newest(first, conversation, None);
    SameCursor(all, messages);
    NextPage(first, now, conversation, |messages|, limit);
    Gathered(all, messages, Page(now, conversation, Cursor(messages), limit), limit);
  }

  /**
   A client that asks for page after page, each before the last message it got, until a page is empty.
   The k-th request meets the table as it is by then. It ends, and has exactly the messages that were
   there at its first request, newest first, each once, in at most one request a message and one more.
   */
  method ScrollBack(tables: nat -> seq<Row>, conversation: nat, limit: nat) returns (messages: seq<Row>, requests: nat)
    requires limit >= 1 && Growing(tables)
    ensures messages == Newest(tables(0), conversation, None)
    ensures requests <= |messages| + 1
    ensures Descending(messages) && forall row :: row in messages <==>
      row in tables(0) && row.conversation == conversation
  {
    ghost var all := Newest(tables(0), conversation, None);
    NextRequest(tables, 0, conversation, [], limit);
    var page := Page(tables(0), conversation, None, limit);
    assert [] + page == page;
    messages, requests := page, 1;
    while page != []
      invariant messages <= all && (page == [] ==> messages == all) && (page != [] ==> messages != [])
      invariant 1 <= requests <= |messages| + if page == [] then 1 else 0
      decreases |all| - |messages|, |page|
    {
      NextRequest(tables, requests, conversation, messages, limit);
      page := Page(tables(requests), conversation, Cursor(messages), limit);
      messages, requests := messages + page, requests + 1;
    }
    NewestFacts(tables(0), conversation, None);
  }

  /** Adding the next stretch of `all`. */
  lemma Gathered(all: seq<Row>, messages: seq<Row>, page: seq<Row>, limit: nat)
    requires messages <= all && limit >= 1
    requires var m := |messages|;
      page == if m + limit < |all| then all[m..m + limit] else all[m..]
    ensures messages + page <= all && (page == [] ==> messages == all)
  {
    assert messages == all[..|messages|];
  }
}
