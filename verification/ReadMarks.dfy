/** "Read up to boundary": single and bulk read marks on an appeal's messages
    (src/routes/appeals.ts). */
module ReadMarks {
  import opened Options
  import opened MessagePaging

  /** Messages of one appeal in the order they were appended, and the (user, message id) marks. */
  datatype Thread = Thread(rows: seq<Message>, marks: set<(nat, nat)>)

  datatype Event =
    | Append(sender: nat, at: int)
    | Delete(id: nat)
    | ReadOne(user: nat, id: nat)
    | ReadBulk(user: nat, ids: set<nat>)

  // ---------------------------------------------------------------- the handlers

  function NextId(rows: seq<Message>): nat {
    if rows == [] then 1 else rows[|rows| - 1].key.id + 1
  }

  /** createdAt is taken from a clock that does not run backwards, ids from a sequence. */
  function DoAppend(t: Thread, sender: nat, at: int): Thread {
    if t.rows != [] && at < t.rows[|t.rows| - 1].key.at then t
    else t.(rows := t.rows + [Message(Key(at, NextId(t.rows)), sender, false)])
  }

  /** Deleting is a flag; the row and its marks stay. */
  function DoDelete(t: Thread, id: nat): Thread {
    t.(rows := seq(|t.rows|, i requires 0 <= i < |t.rows| =>
                     if t.rows[i].key.id == id then t.rows[i].(deleted := true) else t.rows[i]))
  }

  predicate Readable(m: Message, user: nat) {
    !m.deleted && m.sender != user
  }

  predicate AtMost(k: Key, b: Key) {
    k.at < b.at || (k.at == b.at && k.id <= b.id)
  }

  /** Marks every readable message not after the boundary. */
  function MarkUpTo(t: Thread, user: nat, boundary: Key): Thread {
    t.(marks := t.marks + set m | m in t.rows && Readable(m, user) && AtMost(m.key, boundary) :: (user, m.key.id))
  }

  function FindLive(rows: seq<Message>, id: nat): Option<Message> {
    if rows == [] then None
    else if rows[0].key.id == id && !rows[0].deleted then Some(rows[0])
    else FindLive(rows[1..], id)
  }

  /** A missing or own message marks nothing. */
  function DoReadOne(t: Thread, user: nat, id: nat): Thread {
    var m := FindLive(t.rows, id);
    if m.None? || m.value.sender == user then t else MarkUpTo(t, user, m.value.key)
  }

  function Listed(rows: seq<Message>, user: nat, ids: set<nat>): seq<Message> {
    if rows == [] then []
    else (if Readable(rows[0], user) && rows[0].key.id in ids then [rows[0]] else []) + Listed(rows[1..], user, ids)
  }

  /** The latest message of a nonempty list, by (createdAt, id). */
  function Greatest(ms: seq<Message>): (m: Message)
    requires ms != []
    ensures m in ms && forall x :: x in ms ==> AtMost(x.key, m.key)
  {
    if |ms| == 1 then ms[0]
    else
      var rest := Greatest(ms[..|ms| - 1]);
      assert ms == ms[..|ms| - 1] + [ms[|ms| - 1]];
      if Less(rest.key, ms[|ms| - 1].key) then ms[|ms| - 1] else rest
  }

  function DoReadBulk(t: Thread, user: nat, ids: set<nat>): Thread {
    var listed := Listed(t.rows, user, ids);
    if listed == [] then t else MarkUpTo(t, user, Greatest(listed).key)
  }

  function Step(t: Thread, e: Event): Thread {
    match e
    case Append(sender, at) => DoAppend(t, sender, at)
    case Delete(id) => DoDelete(t, id)
    case ReadOne(user, id) => DoReadOne(t, user, id)
    case ReadBulk(user, ids) => DoReadBulk(t, user, ids)
  }

  function Run(events: seq<Event>): Thread {
    if events == [] then Thread([], {}) else Step(Run(events[..|events| - 1]), events[|events| - 1])
  }

  // ---------------------------------------------------------------- how the thread changes

  /** A message older than one already there is not stored; any other becomes the last one, live and
      with an id above all others. */
  lemma AppendIsExact(events: seq<Event>, sender: nat, at: int)
    ensures var (t, t') := (Run(events), Step(Run(events), Append(sender, at)));
      if exists m :: m in t.rows && m.key.at > at then t' == t
      else
        && t'.marks == t.marks && |t'.rows| == |t.rows| + 1 && t.rows <= t'.rows
        && var m := t'.rows[|t.rows|];
        && m == Message(Key(at, m.key.id), sender, false)
        && forall x :: x in t.rows ==> x.key.id < m.key.id
  {
    RunKeepsInv(events);
    if Run(events).rows != [] { LastIsGreatest(Run(events).rows); }
  }

  lemma LastIsGreatest(rows: seq<Message>)
    requires InOrder(rows) && rows != []
    ensures var last := rows[|rows| - 1];
      last in rows && forall x :: x in rows ==> x.key.at <= last.key.at && x.key.id <= last.key.id
  {
    var last := rows[|rows| - 1];
    forall x | x in rows ensures x.key.at <= last.key.at && x.key.id <= last.key.id {
      var i :| 0 <= i < |rows| && rows[i] == x;
    }
  }

  /** Deleting flags the message of that id and changes nothing else. */
  lemma DeleteIsExact(t: Thread, id: nat)
    ensures var t' := Step(t, Delete(id));
      && t'.marks == t.marks && |t'.rows| == |t.rows|
      && forall i :: 0 <= i < |t.rows| ==>
           t'.rows[i] == Message(t.rows[i].key, t.rows[i].sender, t.rows[i].deleted || t.rows[i].key.id == id)
  {
  }

  // ---------------------------------------------------------------- the inductive invariant

  predicate InOrder(rows: seq<Message>) {
    forall i, j :: 0 <= i < j < |rows| ==> rows[i].key.at <= rows[j].key.at && rows[i].key.id < rows[j].key.id
  }

  predicate Marked(t: Thread, user: nat, i: int)
    requires 0 <= i < |t.rows|
  {
    (user, t.rows[i].key.id) in t.marks
  }

  /** Among the live messages from others, whatever precedes a read one is read. */
  ghost predicate DownwardClosed(t: Thread, user: nat) {
    forall i, j :: 0 <= i < j < |t.rows| && Readable(t.rows[i], user) && Readable(t.rows[j], user) && Marked(t, user, j)
      ==> Marked(t, user, i)
  }

  ghost predicate Inv(t: Thread) {
    && InOrder(t.rows)
    && (forall mark :: mark in t.marks ==> mark.1 < NextId(t.rows))
    && (forall user :: DownwardClosed(t, user))
  }

  /** What marking up to a boundary does to one message of one reader. */
  lemma MarkedAfter(t: Thread, user: nat, boundary: Key, reader: nat, i: int)
    requires InOrder(t.rows) && 0 <= i < |t.rows|
    ensures Marked(MarkUpTo(t, user, boundary), reader, i)
       <==> Marked(t, reader, i) || (reader == user && Readable(t.rows[i], user) && AtMost(t.rows[i].key, boundary))
  {
    var t' := MarkUpTo(t, user, boundary);
    if Marked(t', reader, i) && !Marked(t, reader, i) {
      var m :| m in t.rows && Readable(m, user) && AtMost(m.key, boundary)
          && (user, m.key.id) == (reader, t.rows[i].key.id);
      var j :| 0 <= j < |t.rows| && t.rows[j] == m;
      assert j == i;
    }
  }

  lemma MarkKeepsInv(t: Thread, user: nat, boundary: Key)
    requires Inv(t)
    ensures Inv(MarkUpTo(t, user, boundary))
  {
    var t' := MarkUpTo(t, user, boundary);
    forall reader ensures DownwardClosed(t', reader) {
      assert DownwardClosed(t, reader);
      forall i, j | 0 <= i < j < |t.rows| && Readable(t.rows[i], reader) && Readable(t.rows[j], reader)
          && Marked(t', reader, j)
        ensures Marked(t', reader, i)
      {
        MarkedAfter(t, user, boundary, reader, i);
        MarkedAfter(t, user, boundary, reader, j);
      }
    }
    forall mark | mark in t'.marks ensures mark.1 < NextId(t.rows) {
      if mark !in t.marks {
        var m :| m in t.rows && Readable(m, user) && AtMost(m.key, boundary) && mark == (user, m.key.id);
      }
    }
  }

  lemma AppendKeepsInv(t: Thread, sender: nat, at: int)
    requires Inv(t)
    ensures Inv(DoAppend(t, sender, at))
  {
    var t' := DoAppend(t, sender, at);
    if t' != t {
      forall user ensures DownwardClosed(t', user) {
        assert DownwardClosed(t, user);
        assert !Marked(t', user, |t.rows|);
        forall i | 0 <= i < |t.rows| ensures Marked(t', user, i) == Marked(t, user, i) {}
      }
    }
  }

  lemma DeleteKeepsInv(t: Thread, id: nat)
    requires Inv(t)
    ensures Inv(DoDelete(t, id))
  {
    var t' := DoDelete(t, id);
    forall user ensures DownwardClosed(t', user) {
      assert DownwardClosed(t, user);
      forall i | 0 <= i < |t.rows|
        ensures Marked(t', user, i) == Marked(t, user, i)
            && (Readable(t'.rows[i], user) ==> Readable(t.rows[i], user)) {}
    }
  }

  /** In every reachable state each user's read set over live messages from others is downward closed. */
  lemma {:induction false} RunKeepsInv(events: seq<Event>)
    ensures Inv(Run(events))
  {
    if events != [] {
      var t := Run(events[..|events| - 1]);
      RunKeepsInv(events[..|events| - 1]);
      match events[|events| - 1]
      case Append(sender, at) => AppendKeepsInv(t, sender, at);
      case Delete(id) => DeleteKeepsInv(t, id);
      case ReadOne(user, id) =>
        var m := FindLive(t.rows, id);
        if m.Some? { MarkKeepsInv(t, user, m.value.key); }
      case ReadBulk(user, ids) =>
        var listed := Listed(t.rows, user, ids);
        if listed != [] { MarkKeepsInv(t, user, Greatest(listed).key); }
    }
  }

  // ---------------------------------------------------------------- bulk reads and the watermark

  lemma {:induction false} ListedIs(rows: seq<Message>, user: nat, ids: set<nat>)
    ensures forall m :: m in Listed(rows, user, ids) <==> m in rows && Readable(m, user) && m.key.id in ids
  {
    if rows != [] {
      ListedIs(rows[1..], user, ids);
      assert rows == [rows[0]] + rows[1..];
    }
  }

  lemma {:induction false} FindLiveIs(rows: seq<Message>, m: Message)
    requires InOrder(rows) && m in rows && !m.deleted
    ensures FindLive(rows, m.key.id) == Some(m)
  {
    if rows[0] != m {
      assert rows == [rows[0]] + rows[1..];
      FindLiveIs(rows[1..], m);
      assert forall x :: x in rows[1..] ==> rows[0].key.id < x.key.id;
    }
  }

  /** A bulk read of a set is the single read of its greatest readable member, and nothing at all
      when it has none. */
  lemma BulkIsGreatestSingle(events: seq<Event>, user: nat, ids: set<nat>)
    ensures var (t, listed) := (Run(events), Listed(Run(events).rows, user, ids));
      && (forall m :: m in listed <==> m in t.rows && Readable(m, user) && m.key.id in ids)
      && DoReadBulk(t, user, ids) == if listed == [] then t else DoReadOne(t, user, Greatest(listed).key.id)
  {
    RunKeepsInv(events);
    var t := Run(events);
    ListedIs(t.rows, user, ids);
    var listed := Listed(t.rows, user, ids);
    if listed != [] {
      FindLiveIs(t.rows, Greatest(listed));
    }
  }

  /** Everything readable at or before index w is read, nothing readable after it is. */
  ghost predicate Watermark(t: Thread, user: nat, w: int) {
    forall i :: 0 <= i < |t.rows| && Readable(t.rows[i], user) ==> (Marked(t, user, i) <==> i <= w)
  }

  lemma {:induction false} WatermarkExists(t: Thread, user: nat, n: nat) returns (w: int)
    requires DownwardClosed(t, user) && n <= |t.rows|
    requires forall i :: n <= i < |t.rows| && Readable(t.rows[i], user) ==> !Marked(t, user, i)
    ensures Watermark(t, user, w) && w < n
  {
    if n == 0 {
      w := -1;
    } else if Readable(t.rows[n - 1], user) && Marked(t, user, n - 1) {
      w := n - 1;
    } else {
      w := WatermarkExists(t, user, n - 1);
    }
  }

  /** Every reader has a watermark in every reachable state, and reading the live message b of
      another sender moves it to the later of the old one and b: what stays unread is exactly what
      comes after it. */
  lemma ReadMovesWatermark(events: seq<Event>, user: nat, b: nat) returns (w: int)
    requires b < |Run(events).rows| && Readable(Run(events).rows[b], user)
    ensures var t := Run(events);
      Watermark(t, user, w) && Watermark(DoReadOne(t, user, t.rows[b].key.id), user, if w >= b then w else b)
  {
    RunKeepsInv(events);
    var t := Run(events);
    assert DownwardClosed(t, user);
    w := WatermarkExists(t, user, |t.rows|);
    var m := t.rows[b];
    FindLiveIs(t.rows, m);
    forall i | 0 <= i < |t.rows|
      ensures Marked(MarkUpTo(t, user, m.key), user, i) <==> Marked(t, user, i) || (Readable(t.rows[i], user) && i <= b)
    {
      MarkedAfter(t, user, m.key, user, i);
    }
  }

  // ---------------------------------------------------------------- the stored tables

  class MessageStore {
    var rows: seq<Message>
    var marks: set<(nat, nat)>

    ghost function View(): Thread
      reads this
    {
      Thread(rows, marks)
    }

    constructor ()
      ensures View() == Run([])
    {
      rows, marks := [], {};
    }

    /** The reduce that finds the boundary of a bulk read, in whatever order the rows came back. */
    static method Boundary(readable: seq<Message>) returns (max: Message)
      requires readable != []
      ensures max in readable && forall m :: m in readable ==> AtMost(m.key, max.key)
    {
      max := readable[0];
      for i := 0 to |readable|
        invariant max in readable && forall k :: 0 <= k < i ==> AtMost(readable[k].key, max.key)
      {
        var cur := readable[i];
        if cur.key.at > max.key.at {
          max := cur;
        } else if cur.key.at == max.key.at && cur.key.id > max.key.id {
          max := cur;
        }
      }
    }

    method ReadBulk(user: nat, ids: set<nat>)
      modifies `marks
      ensures View() == Step(old(View()), Event.ReadBulk(user, ids))
    {
      var readable := Listed(rows, user, ids);
      if readable != [] {
        var boundary := Boundary(readable);
        assert boundary.key == Greatest(readable).key;
        var unread := set m | m in rows && Readable(m, user) && (user, m.key.id) !in marks
            && AtMost(m.key, boundary.key)
                        :: (user, m.key.id);
        marks := marks + unread;
      }
    }

    method ReadOne(user: nat, id: nat)
      modifies `marks
      ensures View() == Step(old(View()), Event.ReadOne(user, id))
    {
      var message := FindLive(rows, id);
      if message.Some? && message.value.sender != user {
        var unread := set m | m in rows && Readable(m, user) && (user, m.key.id) !in marks
            && AtMost(m.key, message.value.key)
                        :: (user, m.key.id);
        marks := marks + unread;
      }
    }
  }
}
