/** Keyset pagination of an appeal's messages and the bootstrap window around the first or last
    unread one (src/routes/appeals.ts).

    `rows` is the message table of one appeal in index order (createdAt, id), deleted rows
    included: every finite set of messages has exactly one such listing. */
module MessagePaging {
  import opened Numbers
  import opened Options

  datatype Key = Key(at: int, id: nat)

  datatype Message = Message(key: Key, sender: nat, deleted: bool)

  predicate Less(a: Key, b: Key) {
    a.at < b.at || (a.at == b.at && a.id < b.id)
  }

  predicate Sorted(s: seq<Message>) {
    forall i, j :: 0 <= i < j < |s| ==> Less(s[i].key, s[j].key)
  }

  // ---------------------------------------------------------------- database queries

  datatype Range = Everything | Before(k: Key) | After(k: Key) | From(k: Key)

  predicate In(r: Range, k: Key) {
    match r
    case Everything => true
    case Before(c) => k.at < c.at || (k.at == c.at && k.id < c.id)
    case After(c) => k.at > c.at || (k.at == c.at && k.id > c.id)
    case From(c) => k.at > c.at || (k.at == c.at && k.id >= c.id)
  }

  /** Undeleted rows in the range, ascending. */
  function Query(rows: seq<Message>, r: Range): seq<Message> {
    if rows == [] then []
    else (if !rows[0].deleted && In(r, rows[0].key) then [rows[0]] else []) + Query(rows[1..], r)
  }

  function Live(rows: seq<Message>): seq<Message> {
    Query(rows, Everything)
  }

  /** LIMIT n. */
  function Take(s: seq<Message>, n: nat): seq<Message> {
    if n == 0 || s == [] then [] else [s[0]] + Take(s[1..], n - 1)
  }

  lemma {:induction false} TakeIsPrefix(s: seq<Message>, n: nat)
    ensures Take(s, n) == if |s| <= n then s else s[..n]
  {
    if n != 0 && s != [] { TakeIsPrefix(s[1..], n - 1); }
  }

  function Reverse(s: seq<Message>): seq<Message> {
    if s == [] then [] else Reverse(s[1..]) + [s[0]]
  }

  // ---------------------------------------------------------------- the endpoint

  datatype Direction = Backward | Forward

  datatype Page = Page(messages: seq<Message>, moreBefore: bool, moreAfter: bool, anchor: Option<nat>)

  function PrevCursor(p: Page): Option<Key> {
    if p.messages == [] then None else Some(p.messages[0].key)
  }

  function NextCursor(p: Page): Option<Key> {
    if p.messages == [] then None else Some(p.messages[|p.messages| - 1].key)
  }

  function PageOf(rows: seq<Message>, cursor: Option<Key>, dir: Direction, limit: nat): Page {
    var range :=
      if cursor.None? then Everything
      else if dir == Backward then Before(cursor.value) else After(cursor.value);
    var raw :=
      if dir == Backward then Take(Reverse(Query(rows, range)), limit + 1) else Take(Query(rows, range), limit + 1);
    var more := |raw| > limit;
    var page := Take(raw, limit);
    if dir == Backward then Page(Reverse(page), more, cursor.Some?, None)
    else Page(page, cursor.Some?, more, None)
  }

  datatype Anchor = FirstUnread | LastUnread

  function FindAnchor(live: seq<Message>, unread: set<nat>, anchor: Anchor): Option<Message> {
    if live == [] then None
    else
      var (edge, rest) :=
        if anchor == FirstUnread then (live[0], live[1..]) else (live[|live| - 1], live[..|live| - 1]);
      if edge.key.id in unread then Some(edge) else FindAnchor(rest, unread, anchor)
  }

  /** The window around an anchor: `before` messages older than it, itself, `after` newer ones. */
  function Around(rows: seq<Message>, k: Key, before: nat, after: nat): Page {
    Window(Query(rows, Before(k)), Query(rows, From(k)), k.id, before, after)
  }

  function Window(older: seq<Message>, newer: seq<Message>, id: nat, before: nat, after: nat): Page {
    var olderRaw := Take(Reverse(older), before + 1);
    var newerRaw := Take(newer, after + 2);
    Page(Reverse(Take(olderRaw, before)) + Take(newerRaw, after + 1),
         |olderRaw| > before, |newerRaw| > after + 1, Some(id))
  }

  function Latest(rows: seq<Message>, limit: nat): Page {
    var raw := Take(Reverse(Live(rows)), limit + 1);
    Page(Reverse(Take(raw, limit)), |raw| > limit, false, None)
  }

  /** `unread` are the ids of messages from others without a read mark of this user. */
  function Bootstrap(rows: seq<Message>, unread: set<nat>, anchor: Option<Anchor>, before: nat, after: nat,
      limit: nat): Page
  {
    var found := if anchor.None? then None else FindAnchor(Live(rows), unread, anchor.value);
    if found.Some? then Around(rows, found.value.key, before, after) else Latest(rows, limit)
  }

  // ---------------------------------------------------------------- queries are slices

  lemma LaterKeys(rows: seq<Message>)
    requires Sorted(rows) && rows != []
    ensures Sorted(rows[1..]) && forall m :: m in rows[1..] ==> Less(rows[0].key, m.key)
  {
  }

  lemma {:induction false} QuerySound(rows: seq<Message>, r: Range)
    requires Sorted(rows)
    ensures var q := Query(rows, r);
      Sorted(q) && (forall m :: m in q <==> m in rows && !m.deleted && In(r, m.key))
  {
    if rows != [] {
      LaterKeys(rows);
      QuerySound(rows[1..], r);
      assert rows == [rows[0]] + rows[1..];
    }
  }

  lemma {:induction false} QueryNone(rows: seq<Message>, r: Range)
    requires forall m :: m in rows ==> !In(r, m.key)
    ensures Query(rows, r) == []
  {
    if rows != [] { QueryNone(rows[1..], r); }
  }

  lemma {:induction false} QueryAll(rows: seq<Message>, r: Range)
    requires forall m :: m in rows ==> In(r, m.key)
    ensures Query(rows, r) == Live(rows)
  {
    if rows != [] { QueryAll(rows[1..], r); }
  }

  /** The first row's contribution to a query. */
  function Head(rows: seq<Message>, r: Range): seq<Message>
    requires rows != []
  {
    if !rows[0].deleted && In(r, rows[0].key) then [rows[0]] else []
  }

  /** A key cuts the live list in two. */
  lemma {:induction false} Split(rows: seq<Message>, k: Key)
    requires Sorted(rows)
    ensures Query(rows, Before(k)) + Query(rows, From(k)) == Live(rows)
  {
    if rows != [] {
      LaterKeys(rows);
      if Less(rows[0].key, k) {
        var rest := rows[1..];
        Split(rest, k);
        HeadFirst(rows, Before(k), From(k));
        JoinHead(Head(rows, Everything), Query(rest, Before(k)), Query(rest, From(k)));
      } else {
        QueryNone(rows, Before(k));
        QueryAll(rows, From(k));
      }
    }
  }

  /** A first row that is in one range and not in the other. */
  lemma HeadFirst(rows: seq<Message>, r: Range, other: Range)
    requires rows != [] && In(r, rows[0].key) && !In(other, rows[0].key)
    ensures Query(rows, r) == Head(rows, Everything) + Query(rows[1..], r)
    ensures Query(rows, other) == Query(rows[1..], other)
    ensures Live(rows) == Head(rows, Everything) + Live(rows[1..])
  {
    assert [] + Query(rows[1..], other) == Query(rows[1..], other);
  }

  lemma JoinHead(h: seq<Message>, a: seq<Message>, b: seq<Message>)
    ensures h + (a + b) == h + a + b
  {
  }

  lemma {:induction false} SplitAfter(rows: seq<Message>, k: Key)
    requires Sorted(rows)
    ensures Query(rows, After(k)) == WithoutKey(Query(rows, From(k)), k)
  {
    if rows != [] {
      LaterKeys(rows);
      if Less(rows[0].key, k) {
        SplitAfter(rows[1..], k);
        HeadOutside(rows, From(k));
        HeadOutside(rows, After(k));
      } else {
        AllFromHere(rows, k);
      }
    }
  }

  /** A list that loses its first message if that has key k. */
  function WithoutKey(f: seq<Message>, k: Key): seq<Message> {
    if f != [] && f[0].key == k then f[1..] else f
  }

  lemma HeadOutside(rows: seq<Message>, r: Range)
    requires rows != [] && !In(r, rows[0].key)
    ensures Query(rows, r) == Query(rows[1..], r)
  {
    assert [] + Query(rows[1..], r) == Query(rows[1..], r);
  }

  lemma AllFromHere(rows: seq<Message>, k: Key)
    requires Sorted(rows) && rows != [] && !Less(rows[0].key, k)
    ensures Query(rows, After(k)) == WithoutKey(Query(rows, From(k)), k)
  {
    LaterKeys(rows);
    var rest := rows[1..];
    assert forall m :: m in rest ==> Less(k, m.key);
    QueryAll(rest, From(k));
    QueryAll(rest, After(k));
    QuerySound(rest, Everything);
    DropHead(Head(rows, From(k)), Head(rows, After(k)), Live(rest), k);
  }

  /** Only a head with key k itself is missing from the stricter range. */
  lemma DropHead(from: seq<Message>, after: seq<Message>, rest: seq<Message>, k: Key)
    requires |from| <= 1 && (forall m :: m in rest ==> Less(k, m.key))
    requires after == if from != [] && from[0].key == k then [] else from
    ensures after + rest == WithoutKey(from + rest, k)
  {
    if from == [] && rest != [] { assert rest[0] in rest; }
  }

  // ---------------------------------------------------------------- one page

  /** Exactly the first i messages are not after the cursor's key, whoever owns that key. */
  predicate CutsAfter(l: seq<Message>, cursor: Option<Key>, i: nat) {
    if cursor.None? then i == 0
    else
      && i <= |l|
      && (forall j :: 0 <= j < i ==> !Less(cursor.value, l[j].key))
      && (forall j :: i <= j < |l| ==> Less(cursor.value, l[j].key))
  }

  /** Exactly the first i messages are before the cursor's key. */
  predicate CutsBefore(l: seq<Message>, cursor: Option<Key>, i: nat) {
    if cursor.None? then i == |l|
    else
      && i <= |l|
      && (forall j :: 0 <= j < i ==> Less(l[j].key, cursor.value))
      && (forall j :: i <= j < |l| ==> !Less(l[j].key, cursor.value))
  }

  lemma OneCut(l: seq<Message>, cursor: Option<Key>, i: nat, j: nat)
    requires (CutsAfter(l, cursor, i) && CutsAfter(l, cursor, j))
        || (CutsBefore(l, cursor, i) && CutsBefore(l, cursor, j))
    ensures i == j
  {
    var m := if i < j then i else j;
    if cursor.Some? && m < |l| {
      assert Less(l[m].key, cursor.value) || !Less(l[m].key, cursor.value);
    }
  }

  /** The key of a live message cuts the list on both sides of it. */
  lemma LiveCuts(l: seq<Message>, i: nat)
    requires Sorted(l) && i < |l|
    ensures CutsBefore(l, Some(l[i].key), i) && CutsAfter(l, Some(l[i].key), i + 1)
  {
  }

  lemma BeforeIsPrefix(rows: seq<Message>, k: Key)
    requires Sorted(rows)
    ensures var (l, q) := (Live(rows), Query(rows, Before(k)));
      |q| <= |l| && q == l[..|q|] && CutsBefore(l, Some(k), |q|)
  {
    Split(rows, k);
    QuerySound(rows, Before(k));
    QuerySound(rows, From(k));
    PrefixCuts(Live(rows), Query(rows, Before(k)), Query(rows, From(k)), k);
  }

  lemma PrefixCuts(l: seq<Message>, q: seq<Message>, f: seq<Message>, k: Key)
    requires l == q + f
    requires forall m :: m in q ==> Less(m.key, k)
    requires forall m :: m in f ==> !Less(m.key, k)
    ensures |q| <= |l| && q == l[..|q|] && CutsBefore(l, Some(k), |q|)
  {
    forall j | 0 <= j < |q| ensures Less(l[j].key, k) { assert l[j] == q[j] && q[j] in q; }
    forall j | |q| <= j < |l| ensures !Less(l[j].key, k) { assert l[j] == f[j - |q|] && f[j - |q|] in f; }
  }

  lemma AfterIsSuffix(rows: seq<Message>, k: Key)
    requires Sorted(rows)
    ensures var (l, q) := (Live(rows), Query(rows, After(k)));
      |q| <= |l| && q == l[|l| - |q|..] && CutsAfter(l, Some(k), |l| - |q|)
  {
    Split(rows, k);
    SplitAfter(rows, k);
    QuerySound(rows, Before(k));
    QuerySound(rows, After(k));
    SuffixCuts(Live(rows), Query(rows, Before(k)), Query(rows, From(k)), Query(rows, After(k)), k);
  }

  lemma SuffixCuts(l: seq<Message>, older: seq<Message>, f: seq<Message>, q: seq<Message>, k: Key)
    requires l == older + f && q == WithoutKey(f, k)
    requires forall m :: m in older ==> Less(m.key, k)
    requires forall m :: m in q ==> Less(k, m.key)
    ensures |q| <= |l| && q == l[|l| - |q|..] && CutsAfter(l, Some(k), |l| - |q|)
  {
    var n := |l| - |q|;
    forall j | n <= j < |l| ensures Less(k, l[j].key) { assert l[j] == q[j - n] && q[j - n] in q; }
    forall j | 0 <= j < n ensures !Less(k, l[j].key) {
      if j < |older| { assert l[j] == older[j] && older[j] in older; } else { assert l[j] == f[0]; }
    }
  }

  /** At the key of the i-th live message the queries return the slices around i. */
  lemma AtLive(rows: seq<Message>, i: nat)
    requires Sorted(rows) && i < |Live(rows)|
    ensures var (l, k) := (Live(rows), Live(rows)[i].key);
      Query(rows, Before(k)) == l[..i] && Query(rows, From(k)) == l[i..] && Query(rows, After(k)) == l[i + 1..]
  {
    var (l, k) := (Live(rows), Live(rows)[i].key);
    QuerySound(rows, Everything);
    BeforeIsPrefix(rows, k);
    AfterIsSuffix(rows, k);
    LiveCuts(l, i);
    OneCut(l, Some(k), |Query(rows, Before(k))|, i);
    OneCut(l, Some(k), |l| - |Query(rows, After(k))|, i + 1);
    Split(rows, k);
    SecondPart(l, Query(rows, Before(k)), Query(rows, From(k)));
  }

  lemma SecondPart(l: seq<Message>, a: seq<Message>, b: seq<Message>)
    requires l == a + b
    ensures l[|a|..] == b
  {
  }

  /** Paging forward from any cursor, the key of a deleted message included: the next `limit` live
      messages after it and an exact answer to whether more follow.  The other flag only repeats
      whether there was a cursor, so it is wrong exactly when nothing live is at or before it. */
  lemma ForwardPage(rows: seq<Message>, cursor: Option<Key>, limit: nat) returns (i: nat)
    requires Sorted(rows)
    ensures var (l, p) := (Live(rows), PageOf(rows, cursor, Forward, limit));
      && CutsAfter(l, cursor, i) && i <= |l|
      && p.messages == (if |l| - i <= limit then l[i..] else l[i..i + limit])
      && (p.moreAfter <==> i + limit < |l|)
      && ((p.moreBefore <==> 0 < i) <==> cursor.None? || 0 < i)
  {
    var l := Live(rows);
    i := 0;
    if cursor.Some? {
      AfterIsSuffix(rows, cursor.value);
      i := |l| - |Query(rows, After(cursor.value))|;
    }
    FirstOnes(l[i..], limit);
    assert l[i..] == if cursor.None? then l else Query(rows, After(cursor.value));
  }

  lemma BackwardPage(rows: seq<Message>, cursor: Option<Key>, limit: nat) returns (i: nat)
    requires Sorted(rows)
    ensures var (l, p) := (Live(rows), PageOf(rows, cursor, Backward, limit));
      && CutsBefore(l, cursor, i) && i <= |l|
      && p.messages == l[Max(0, i - limit)..i]
      && (p.moreBefore <==> limit < i)
      && ((p.moreAfter <==> i < |l|) <==> cursor.None? || i < |l|)
  {
    var l := Live(rows);
    i := |l|;
    if cursor.Some? {
      BeforeIsPrefix(rows, cursor.value);
      i := |Query(rows, Before(cursor.value))|;
    }
    assert l[..i] == if cursor.None? then l else Query(rows, Before(cursor.value));
    LastOnes(l[..i], limit);
    assert l[..i][Max(0, i - limit)..] == l[Max(0, i - limit)..i];
  }

  /** A lone message, deleted after its cursor was handed out: the page still claims older ones. */
  lemma DeletedCursorMisleads()
    ensures var rows := [Message(Key(1, 1), 0, true)];
      Live(rows) == [] && PageOf(rows, Some(Key(1, 1)), Forward, 1) == Page([], true, false, None)
  {
    var rows := [Message(Key(1, 1), 0, true)];
    assert rows[1..] == [];
    var i := ForwardPage(rows, Some(Key(1, 1)), 1);
  }

  lemma {:induction false} Reversed(s: seq<Message>)
    ensures |Reverse(s)| == |s| && forall i :: 0 <= i < |s| ==> Reverse(s)[i] == s[|s| - 1 - i]
  {
    if s != [] { Reversed(s[1..]); }
  }

  /** Reversing, taking with one to spare, cutting and reversing back keeps the last ones. */
  lemma LastOnes(s: seq<Message>, n: nat)
    ensures Reverse(Take(Take(Reverse(s), n + 1), n)) == s[Max(0, |s| - n)..]
    ensures |Take(Reverse(s), n + 1)| > n <==> |s| > n
  {
    var t := Take(Take(Reverse(s), n + 1), n);
    Reversed(s);
    FirstOnes(Reverse(s), n);
    Reversed(t);
    assert |t| == |s| - Max(0, |s| - n);
    assert forall i :: 0 <= i < |t| ==> t[i] == s[|s| - 1 - i];
  }

  lemma FirstOnes(s: seq<Message>, n: nat)
    ensures Take(Take(s, n + 1), n) == s[..Min(n, |s|)]
    ensures |Take(s, n + 1)| > n <==> |s| > n
  {
    TakeIsPrefix(s, n + 1);
    TakeIsPrefix(Take(s, n + 1), n);
  }

  // ---------------------------------------------------------------- following cursors

  /** An endpoint as its client sees it: a cursor in, a page out. */
  type Endpoint = Option<Key> -> Page

  function Older(rows: seq<Message>, limit: nat): Endpoint {
    cursor => PageOf(rows, cursor, Backward, limit)
  }

  function Newer(rows: seq<Message>, limit: nat): Endpoint {
    cursor => PageOf(rows, cursor, Forward, limit)
  }

  /** The pages a client collects by following next cursors until told there is no more. */
  predicate ForwardWalk(page: Endpoint, cursor: Option<Key>, pages: seq<Page>)
    decreases |pages|
  {
    && pages != [] && pages[0] == page(cursor)
    && (if pages[0].moreAfter then ForwardWalk(page, NextCursor(pages[0]), pages[1..]) else |pages| == 1)
  }

  predicate BackwardWalk(page: Endpoint, cursor: Option<Key>, pages: seq<Page>)
    decreases |pages|
  {
    && pages != [] && pages[0] == page(cursor)
    && (if pages[0].moreBefore then BackwardWalk(page, PrevCursor(pages[0]), pages[1..]) else |pages| == 1)
  }

  /** Later pages go below earlier ones when paging forward, above them when paging backward. */
  function Appended(pages: seq<Page>): seq<Message> {
    if pages == [] then [] else pages[0].messages + Appended(pages[1..])
  }

  function Prepended(pages: seq<Page>): seq<Message> {
    if pages == [] then [] else Prepended(pages[1..]) + pages[0].messages
  }

  /** The cursor stands just before the i-th message of the list. */
  predicate StandsBefore(l: seq<Message>, cursor: Option<Key>, i: nat) {
    if cursor.None? then i == 0 else 0 < i <= |l| && cursor == Some(l[i - 1].key)
  }

  /** The cursor stands just after the first i messages of the list. */
  predicate StandsAfter(l: seq<Message>, cursor: Option<Key>, i: nat) {
    if cursor.None? then i == |l| else i < |l| && cursor == Some(l[i].key)
  }

  predicate NextSlice(l: seq<Message>, p: Page, i: nat, limit: nat) {
    i <= |l| && if p.moreAfter then i + limit < |l| && p.messages == l[i..i + limit] else p.messages == l[i..]
  }

  predicate PrevSlice(l: seq<Message>, p: Page, i: nat, limit: nat) {
    i <= |l| && if p.moreBefore then limit < i && p.messages == l[i - limit..i] else p.messages == l[..i]
  }

  /** What makes an endpoint safe to follow. */
  ghost predicate ServesForward(page: Endpoint, l: seq<Message>, limit: nat) {
    forall c, i: nat :: StandsBefore(l, c, i) ==> NextSlice(l, page(c), i, limit)
  }

  ghost predicate ServesBackward(page: Endpoint, l: seq<Message>, limit: nat) {
    forall c, i: nat :: StandsAfter(l, c, i) ==> PrevSlice(l, page(c), i, limit)
  }

  lemma ForwardFromLive(rows: seq<Message>, cursor: Option<Key>, i: nat, limit: nat)
    requires Sorted(rows) && Sorted(Live(rows)) && StandsBefore(Live(rows), cursor, i)
    ensures NextSlice(Live(rows), PageOf(rows, cursor, Forward, limit), i, limit)
  {
    var n := ForwardPage(rows, cursor, limit);
    if cursor.Some? { LiveCuts(Live(rows), i - 1); }
    OneCut(Live(rows), cursor, i, n);
  }

  lemma BackwardFromLive(rows: seq<Message>, cursor: Option<Key>, i: nat, limit: nat)
    requires Sorted(rows) && Sorted(Live(rows)) && StandsAfter(Live(rows), cursor, i)
    ensures PrevSlice(Live(rows), PageOf(rows, cursor, Backward, limit), i, limit)
  {
    var n := BackwardPage(rows, cursor, limit);
    if cursor.Some? { LiveCuts(Live(rows), i); }
    OneCut(Live(rows), cursor, i, n);
    assert Live(rows)[0..i] == Live(rows)[..i];
  }

  lemma NewerServes(rows: seq<Message>, limit: nat)
    requires Sorted(rows)
    ensures ServesForward(Newer(rows, limit), Live(rows), limit)
  {
    QuerySound(rows, Everything);
    forall c, i: nat | StandsBefore(Live(rows), c, i) ensures NextSlice(Live(rows), Newer(rows, limit)(c), i, limit) {
      ForwardFromLive(rows, c, i, limit);
    }
  }

  lemma OlderServes(rows: seq<Message>, limit: nat)
    requires Sorted(rows)
    ensures ServesBackward(Older(rows, limit), Live(rows), limit)
  {
    QuerySound(rows, Everything);
    forall c, i: nat | StandsAfter(Live(rows), c, i) ensures PrevSlice(Live(rows), Older(rows, limit)(c), i, limit) {
      BackwardFromLive(rows, c, i, limit);
    }
  }

  lemma JoinTail(l: seq<Message>, i: nat, j: nat)
    requires i <= j <= |l|
    ensures l[i..j] + l[j..] == l[i..]
  {
  }

  lemma JoinFront(l: seq<Message>, i: nat, j: nat)
    requires i <= j <= |l|
    ensures l[..i] + l[i..j] == l[..j]
  {
  }

  lemma AppendPage(l: seq<Message>, i: nat, j: nat, pages: seq<Page>)
    requires i <= j <= |l| && pages != []
    requires pages[0].messages == if j == |l| then l[i..] else l[i..j]
    requires if j == |l| then |pages| == 1 else Appended(pages[1..]) == l[j..]
    ensures Appended(pages) == l[i..]
  {
    if j < |l| {
      JoinTail(l, i, j);
    } else {
      assert pages[1..] == [];
    }
  }

  lemma PrependPage(l: seq<Message>, i: nat, j: nat, pages: seq<Page>)
    requires i <= j <= |l| && pages != []
    requires pages[0].messages == if i == 0 then l[..j] else l[i..j]
    requires if i == 0 then |pages| == 1 else Prepended(pages[1..]) == l[..i]
    ensures Prepended(pages) == l[..j]
  {
    if i > 0 {
      JoinFront(l, i, j);
    } else {
      assert pages[1..] == [];
    }
  }

  lemma JoinAll(s: seq<Message>, i: nat, j: nat, a: seq<Message>, b: seq<Message>, c: seq<Message>)
    requires i <= j <= |s| && a == s[..i] && b == s[i..j] && c == s[j..]
    ensures a + b + c == s
  {
  }

  lemma JoinMiddle(s: seq<Message>, i: nat, j: nat, k: nat)
    requires i <= j <= k <= |s|
    ensures s[i..j] + s[j..k] == s[i..k]
  {
  }

  lemma {:induction false} ForwardVisitsTheRest(
      page: Endpoint, l: seq<Message>, cursor: Option<Key>, i: nat, limit: nat, pages: seq<Page>)
    requires limit > 0 && ServesForward(page, l, limit) && NextSlice(l, page(cursor), i, limit)
        && ForwardWalk(page, cursor, pages)
    ensures i <= |l| && Appended(pages) == l[i..]
    decreases |pages|
  {
    if pages[0].moreAfter {
      assert pages[0].messages[limit - 1] == l[i + limit - 1];
      assert StandsBefore(l, NextCursor(pages[0]), i + limit);
      ForwardVisitsTheRest(page, l, NextCursor(pages[0]), i + limit, limit, pages[1..]);
      AppendPage(l, i, i + limit, pages);
    } else {
      AppendPage(l, i, |l|, pages);
    }
  }

  lemma {:induction false} BackwardVisitsTheRest(
      page: Endpoint, l: seq<Message>, cursor: Option<Key>, i: nat, limit: nat, pages: seq<Page>)
    requires limit > 0 && ServesBackward(page, l, limit) && PrevSlice(l, page(cursor), i, limit)
        && BackwardWalk(page, cursor, pages)
    ensures i <= |l| && Prepended(pages) == l[..i]
    decreases |pages|
  {
    if pages[0].moreBefore {
      assert pages[0].messages[0] == l[i - limit];
      assert StandsAfter(l, PrevCursor(pages[0]), i - limit);
      BackwardVisitsTheRest(page, l, PrevCursor(pages[0]), i - limit, limit, pages[1..]);
      PrependPage(l, i - limit, i, pages);
    } else {
      PrependPage(l, 0, i, pages);
    }
  }

  /** The client's loop ends: from every position there is a complete walk. */
  lemma {:induction false} ForwardWalkEnds(page: Endpoint, l: seq<Message>, cursor: Option<Key>, i: nat, limit: nat)
      returns (pages: seq<Page>)
    requires limit > 0 && ServesForward(page, l, limit) && StandsBefore(l, cursor, i)
    ensures ForwardWalk(page, cursor, pages)
    decreases |l| - i
  {
    var p := page(cursor);
    assert NextSlice(l, p, i, limit);
    pages := [p];
    if p.moreAfter {
      assert p.messages[limit - 1] == l[i + limit - 1];
      var rest := ForwardWalkEnds(page, l, NextCursor(p), i + limit, limit);
      pages := [p] + rest;
      assert pages[1..] == rest;
    }
  }

  lemma {:induction false} BackwardWalkEnds(page: Endpoint, l: seq<Message>, cursor: Option<Key>, i: nat, limit: nat)
      returns (pages: seq<Page>)
    requires limit > 0 && ServesBackward(page, l, limit) && StandsAfter(l, cursor, i)
    ensures BackwardWalk(page, cursor, pages)
    decreases i
  {
    var p := page(cursor);
    assert PrevSlice(l, p, i, limit);
    pages := [p];
    if p.moreBefore {
      assert p.messages[0] == l[i - limit];
      var rest := BackwardWalkEnds(page, l, PrevCursor(p), i - limit, limit);
      pages := [p] + rest;
      assert pages[1..] == rest;
    }
  }

  /** Following cursors in either direction visits every live message exactly once, in order. */
  lemma WalksVisitEverything(rows: seq<Message>, limit: nat, forward: seq<Page>, backward: seq<Page>)
    requires Sorted(rows) && limit > 0
    requires ForwardWalk(Newer(rows, limit), None, forward) && BackwardWalk(Older(rows, limit), None, backward)
    ensures Appended(forward) == Prepended(backward) == Live(rows)
    ensures Sorted(Live(rows)) && forall m :: m in Live(rows) <==> m in rows && !m.deleted
  {
    var l := Live(rows);
    NewerServes(rows, limit);
    OlderServes(rows, limit);
    ForwardVisitsTheRest(Newer(rows, limit), l, None, 0, limit, forward);
    BackwardVisitsTheRest(Older(rows, limit), l, None, |l|, limit, backward);
    QuerySound(rows, Everything);
  }

  /** A walk resumed from any key, whatever has become of its message, visits exactly the live
      messages after it (before it), once and in order. */
  lemma WalksResume(rows: seq<Message>, k: Key, limit: nat, forward: seq<Page>, backward: seq<Page>)
      returns (i: nat, j: nat)
    requires Sorted(rows) && limit > 0
    requires ForwardWalk(Newer(rows, limit), Some(k), forward) && BackwardWalk(Older(rows, limit), Some(k), backward)
    ensures var l := Live(rows);
      && CutsAfter(l, Some(k), i) && i <= |l| && Appended(forward) == l[i..]
      && CutsBefore(l, Some(k), j) && j <= |l| && Prepended(backward) == l[..j]
  {
    var l := Live(rows);
    NewerServes(rows, limit);
    OlderServes(rows, limit);
    i := ForwardPage(rows, Some(k), limit);
    j := BackwardPage(rows, Some(k), limit);
    assert l[0..j] == l[..j];
    ForwardVisitsTheRest(Newer(rows, limit), l, Some(k), i, limit, forward);
    BackwardVisitsTheRest(Older(rows, limit), l, Some(k), j, limit, backward);
  }

  /** Both walks come to an end. */
  lemma WalksEnd(rows: seq<Message>, limit: nat) returns (forward: seq<Page>, backward: seq<Page>)
    requires Sorted(rows) && limit > 0
    ensures ForwardWalk(Newer(rows, limit), None, forward) && BackwardWalk(Older(rows, limit), None, backward)
  {
    NewerServes(rows, limit);
    OlderServes(rows, limit);
    forward := ForwardWalkEnds(Newer(rows, limit), Live(rows), None, 0, limit);
    backward := BackwardWalkEnds(Older(rows, limit), Live(rows), None, |Live(rows)|, limit);
  }

  // ---------------------------------------------------------------- the bootstrap window

  predicate IsAnchor(live: seq<Message>, unread: set<nat>, anchor: Anchor, i: nat) {
    && i < |live| && live[i].key.id in unread
    && (anchor == FirstUnread ==> forall j :: 0 <= j < i ==> live[j].key.id !in unread)
    && (anchor == LastUnread ==> forall j :: i < j < |live| ==> live[j].key.id !in unread)
  }

  lemma AnchorBehindRead(live: seq<Message>, unread: set<nat>, j: nat)
    requires live != [] && live[0].key.id !in unread && IsAnchor(live[1..], unread, FirstUnread, j)
    ensures IsAnchor(live, unread, FirstUnread, j + 1)
  {
    assert forall x :: 0 < x < |live| ==> live[x] == live[1..][x - 1];
  }

  lemma AnchorBeforeRead(live: seq<Message>, unread: set<nat>, j: nat)
    requires live != [] && live[|live| - 1].key.id !in unread
    requires IsAnchor(live[..|live| - 1], unread, LastUnread, j)
    ensures IsAnchor(live, unread, LastUnread, j)
  {
    assert forall x :: 0 <= x < |live| - 1 ==> live[x] == live[..|live| - 1][x];
  }

  lemma {:induction false} AnchorFound(live: seq<Message>, unread: set<nat>, anchor: Anchor) returns (i: nat)
    ensures FindAnchor(live, unread, anchor).Some? ==>
      IsAnchor(live, unread, anchor, i) && FindAnchor(live, unread, anchor).value == live[i]
    ensures FindAnchor(live, unread, anchor).None? ==> forall m :: m in live ==> m.key.id !in unread
  {
    i := 0;
    if live != [] {
      if anchor == FirstUnread {
        if live[0].key.id !in unread {
          var j := AnchorFound(live[1..], unread, anchor);
          i := j + 1;
          assert live == [live[0]] + live[1..];
          if FindAnchor(live, unread, anchor).Some? { AnchorBehindRead(live, unread, j); }
        }
      } else {
        var n := |live| - 1;
        i := n;
        if live[n].key.id !in unread {
          i := AnchorFound(live[..n], unread, anchor);
          assert live == live[..n] + [live[n]];
          if FindAnchor(live, unread, anchor).Some? { AnchorBeforeRead(live, unread, i); }
        }
      }
    }
  }

  predicate IsSlice(l: seq<Message>, p: Page, lo: nat, hi: nat) {
    && lo <= hi <= |l| && p.messages == l[lo..hi]
    && (p.moreBefore <==> 0 < lo) && (p.moreAfter <==> hi < |l|)
  }

  lemma LastSlice(l: seq<Message>, i: nat, n: nat)
    requires i <= |l|
    ensures Reverse(Take(Take(Reverse(l[..i]), n + 1), n)) == l[Max(0, i - n)..i]
    ensures |Take(Reverse(l[..i]), n + 1)| > n <==> i > n
  {
    LastOnes(l[..i], n);
    assert l[..i][Max(0, i - n)..] == l[Max(0, i - n)..i];
  }

  lemma FirstSlice(l: seq<Message>, i: nat, n: nat)
    requires i <= |l|
    ensures Take(Take(l[i..], n + 1), n) == l[i..Min(i + n, |l|)]
    ensures |Take(l[i..], n + 1)| > n <==> i + n < |l|
  {
    FirstOnes(l[i..], n);
    assert l[i..][..Min(n, |l| - i)] == l[i..Min(i + n, |l|)];
  }

  lemma AroundIsSlice(rows: seq<Message>, i: nat, before: nat, after: nat)
    requires Sorted(rows) && i < |Live(rows)|
    ensures IsSlice(Live(rows), Around(rows, Live(rows)[i].key, before, after),
                    Max(0, i - before), Min(i + (after + 1), |Live(rows)|))
  {
    AtLive(rows, i);
    WindowIsSlice(Live(rows), i, before, after);
  }

  lemma WindowIsSlice(l: seq<Message>, i: nat, before: nat, after: nat)
    requires i < |l|
    ensures IsSlice(l, Window(l[..i], l[i..], l[i].key.id, before, after),
                    Max(0, i - before), Min(i + (after + 1), |l|))
  {
    var (lo, hi) := (Max(0, i - before), Min(i + (after + 1), |l|));
    var p := Window(l[..i], l[i..], l[i].key.id, before, after);
    LastSlice(l, i, before);
    FirstSlice(l, i, after + 1);
    assert p.messages == l[lo..i] + l[i..hi];
    assert p.moreBefore <==> 0 < lo;
    assert p.moreAfter <==> hi < |l|;
    JoinMiddle(l, lo, i, hi);
  }

  lemma LatestIsSlice(rows: seq<Message>, limit: nat)
    ensures IsSlice(Live(rows), Latest(rows, limit), Max(0, |Live(rows)| - limit), |Live(rows)|)
  {
    LastSlice(Live(rows), |Live(rows)|, limit);
    assert Live(rows)[..|Live(rows)|] == Live(rows);
  }

  /** The bootstrap window is a contiguous slice with exact has-more flags on both sides: around the
      first or last unread message when there is one, otherwise the end of the list. */
  lemma BootstrapWindow(rows: seq<Message>, unread: set<nat>, anchor: Option<Anchor>, before: nat, after: nat,
      limit: nat)
      returns (lo: nat, hi: nat, i: nat)
    requires Sorted(rows)
    ensures var (l, p) := (Live(rows), Bootstrap(rows, unread, anchor, before, after, limit));
      && IsSlice(l, p, lo, hi)
      && (if anchor.Some? && exists m :: m in l && m.key.id in unread
          then IsAnchor(l, unread, anchor.value, i) && p.anchor == Some(l[i].key.id)
               && lo == Max(0, i - before) && hi == Min(i + (after + 1), |l|)
          else p.anchor == None && lo == Max(0, |l| - limit) && hi == |l|)
  {
    var l := Live(rows);
    i := 0;
    lo, hi := Max(0, |l| - limit), |l|;
    if anchor.Some? {
      i := AnchorFound(l, unread, anchor.value);
      if FindAnchor(l, unread, anchor.value).Some? {
        lo, hi := Max(0, i - before), Min(i + (after + 1), |l|);
        AroundIsSlice(rows, i, before, after);
        assert l[i] in l;
        return;
      }
    }
    LatestIsSlice(rows, limit);
  }

  /** Walking outward from the two end cursors of the bootstrap window rebuilds the whole list,
      without gap or overlap. */
  lemma WindowExtends(rows: seq<Message>, unread: set<nat>, anchor: Option<Anchor>, before: nat, after: nat, limit: nat,
                      older: seq<Page>, newer: seq<Page>)
    requires Sorted(rows) && limit > 0 && Live(rows) != []
    requires var p := Bootstrap(rows, unread, anchor, before, after, limit);
      && BackwardWalk(Older(rows, limit), PrevCursor(p), older)
      && ForwardWalk(Newer(rows, limit), NextCursor(p), newer)
    ensures Prepended(older) + Bootstrap(rows, unread, anchor, before, after, limit).messages + Appended(newer)
        == Live(rows)
  {
    var lo, hi, i := BootstrapWindow(rows, unread, anchor, before, after, limit);
    NewerServes(rows, limit);
    OlderServes(rows, limit);
    SliceExtends(Older(rows, limit), Newer(rows, limit), Live(rows),
                 Bootstrap(rows, unread, anchor, before, after, limit), lo, hi, limit, older, newer);
  }

  lemma SliceExtends(back: Endpoint, forth: Endpoint, l: seq<Message>, p: Page, lo: nat, hi: nat, limit: nat,
                     older: seq<Page>, newer: seq<Page>)
    requires limit > 0 && IsSlice(l, p, lo, hi) && lo < hi
    requires ServesBackward(back, l, limit) && ServesForward(forth, l, limit)
    requires BackwardWalk(back, PrevCursor(p), older) && ForwardWalk(forth, NextCursor(p), newer)
    ensures Prepended(older) + p.messages + Appended(newer) == l
  {
    assert p.messages[0] == l[lo] && p.messages[hi - lo - 1] == l[hi - 1];
    BackwardVisitsTheRest(back, l, PrevCursor(p), lo, limit, older);
    ForwardVisitsTheRest(forth, l, NextCursor(p), hi, limit, newer);
    JoinAll(l, lo, hi, Prepended(older), p.messages, Appended(newer));
  }

  // ---------------------------------------------------------------- cursors as text

  function Digits(n: nat): string {
    if n < 10 then [('0' as int + n) as char] else Digits(n / 10) + [('0' as int + n % 10) as char]
  }

  function ParseDigits(s: string): Option<nat> {
    if s == "" then None
    else
      var c := s[|s| - 1];
      if !('0' <= c <= '9') then None
      else if |s| == 1 then Some(c as int - '0' as int)
      else
        var high := ParseDigits(s[..|s| - 1]);
        if high.None? then None else Some(10 * high.value + (c as int - '0' as int))
  }

  /** The parts of `s` around its first '|'. */
  function FirstBar(s: string): nat {
    if s == "" || s[0] == '|' then 0 else 1 + FirstBar(s[1..])
  }

  /** ISO time, '|', decimal id; `iso` and `parse` stand for the Date text conversions. */
  function Encode(k: Key, iso: int -> string): string {
    iso(k.at) + "|" + Digits(k.id)
  }

  /** Splits at '|' and keeps the first two parts, as the destructuring does. */
  function Decode(raw: string, parse: string -> Option<int>): Option<Key> {
    var i := FirstBar(raw);
    if i == 0 || i >= |raw| then None
    else
      var rest := raw[i + 1..];
      var j := FirstBar(rest);
      var idText := if j <= |rest| then rest[..j] else rest;
      if idText == "" then None
      else
        var (at, id) := (parse(raw[..i]), ParseDigits(idText));
        if at.None? || id.None? then None else Some(Key(at.value, id.value))
  }

  lemma {:induction false} DigitsParse(n: nat)
    ensures Digits(n) != "" && ParseDigits(Digits(n)) == Some(n) && '|' !in Digits(n)
  {
    if n >= 10 {
      DigitsParse(n / 10);
      var d := Digits(n);
      assert d[..|d| - 1] == Digits(n / 10);
    }
  }

  lemma {:induction false} BarFound(a: string, b: string)
    requires '|' !in a
    ensures FirstBar(a + "|" + b) == |a|
    ensures FirstBar(a) == |a|
  {
    if a == "" {
      assert a + "|" + b == "|" + b;
    } else {
      BarFound(a[1..], b);
      assert (a + "|" + b)[1..] == a[1..] + "|" + b;
    }
  }

  /** Every cursor the endpoint hands out decodes to the position it was made from. */
  lemma CursorRoundTrip(k: Key, iso: int -> string, parse: string -> Option<int>)
    requires forall t :: iso(t) != "" && '|' !in iso(t) && parse(iso(t)) == Some(t)
    ensures Decode(Encode(k, iso), parse) == Some(k)
  {
    var raw := Encode(k, iso);
    DigitsParse(k.id);
    BarFound(iso(k.at), Digits(k.id));
    BarFound(Digits(k.id), "");
    assert raw[..|iso(k.at)|] == iso(k.at);
    assert raw[|iso(k.at)| + 1..] == Digits(k.id);
    assert Digits(k.id)[..|Digits(k.id)|] == Digits(k.id);
    assert FirstBar(raw) == |iso(k.at)|;
  }
}
