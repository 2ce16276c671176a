/**
 Chat history on the client: pages arrive in any order and overlap, and are merged into
 one list.  The locale's string comparison is a parameter: a total preorder on
 timestamps, and one on identifiers that tells different identifiers apart.
 */
module History {
  import opened Basics
  import D = OrderedDict

  datatype Message = Message(id: string, createdAt: string, body: string)

  datatype Pending = Pending(id: string, body: string)

  /** What a page says about the chat besides its messages. */
  datatype Summary = Summary(
    status: string,
    activeTurn: Option<string>,
    lastMessage: Option<string>,
    pendingCount: nat,
    delegateCount: nat)

  datatype MessageHistory = MessageHistory(
    messages: seq<Message>,
    pending: seq<Pending>,
    summary: Summary,
    hasMoreBefore: bool)

  const EMPTY := MessageHistory([], [], Summary("idle", None, None, 0, 0), false)

  type Comparison = (string, string) -> int

  datatype Locale = Locale(time: Comparison, id: Comparison)

  ghost predicate TotalPreorder(compare: Comparison) {
    && (forall a, b :: compare(a, b) <= 0 <==> compare(b, a) >= 0)
    && (forall a, b, c :: compare(a, b) <= 0 && compare(b, c) <= 0 ==> compare(a, c) <= 0)
  }

  ghost predicate Sound(l: Locale) {
    && TotalPreorder(l.time) && TotalPreorder(l.id)
    && (forall a, b :: l.id(a, b) == 0 ==> a == b)
  }

  function CompareMessages(l: Locale, left: Message, right: Message): int {
    if l.time(left.createdAt, right.createdAt) != 0 then l.time(left.createdAt, right.createdAt)
    else l.id(left.id, right.id)
  }

  predicate Before(l: Locale, left: Message, right: Message) {
    CompareMessages(l, left, right) < 0
  }

  lemma BeforeIsAnOrder(l: Locale, a: Message, b: Message, c: Message)
    requires Sound(l)
    ensures Before(l, a, b) && Before(l, b, c) ==> Before(l, a, c)
    ensures !(Before(l, a, b) && Before(l, b, a))
    ensures a.id != b.id ==> Before(l, a, b) || Before(l, b, a)
    ensures a == b ==> CompareMessages(l, a, b) == 0
  {
    TimeFacts(l.time, a.createdAt, b.createdAt, c.createdAt);
    TimeFacts(l.id, a.id, b.id, c.id);
  }

  lemma TimeFacts(compare: Comparison, a: string, b: string, c: string)
    requires TotalPreorder(compare)
    ensures compare(a, a) == 0
    ensures compare(a, b) < 0 <==> compare(b, a) > 0
    ensures compare(a, b) == 0 <==> compare(b, a) == 0
    ensures compare(a, b) <= 0 && compare(b, c) <= 0 ==> compare(a, c) <= 0
    ensures compare(a, b) < 0 && compare(b, c) <= 0 ==> compare(a, c) < 0
    ensures compare(a, b) <= 0 && compare(b, c) < 0 ==> compare(a, c) < 0
  {
    assert compare(a, a) <= 0 <==> compare(a, a) >= 0;
    assert compare(a, b) <= 0 <==> compare(b, a) >= 0;
    assert compare(b, a) <= 0 <==> compare(a, b) >= 0;
    assert compare(c, a) <= 0 <==> compare(a, c) >= 0;
    assert compare(c, b) <= 0 <==> compare(b, c) >= 0;
    assert compare(b, c) <= 0 && compare(c, a) <= 0 ==> compare(b, a) <= 0;
    assert compare(c, a) <= 0 && compare(a, b) <= 0 ==> compare(c, b) <= 0;
  }

  // ---- Sorting --------------------------------------------------------------

  /** Insert behind everything that does not come after `x`. */
  function Insert(l: Locale, sorted: seq<Message>, x: Message): seq<Message> {
    if sorted == [] then [x]
    else if CompareMessages(l, x, sorted[0]) < 0 then [x] + sorted
    else [sorted[0]] + Insert(l, sorted[1..], x)
  }

  /** The stable sort of the language. */
  function Sort(l: Locale, messages: seq<Message>): seq<Message> {
    if messages == [] then []
    else Insert(l, Sort(l, messages[..|messages| - 1]), messages[|messages| - 1])
  }

  predicate StrictlySorted(l: Locale, messages: seq<Message>) {
    forall i, j | 0 <= i < j < |messages| :: Before(l, messages[i], messages[j])
  }

  predicate DistinctIds(messages: seq<Message>) {
    forall i, j | 0 <= i < j < |messages| :: messages[i].id != messages[j].id
  }

  lemma SortedCons(l: Locale, head: Message, rest: seq<Message>)
    requires StrictlySorted(l, rest) && forall i | 0 <= i < |rest| :: Before(l, head, rest[i])
    ensures StrictlySorted(l, [head] + rest)
  {
    hide Before;
  }

  lemma {:induction false} InsertSorted(l: Locale, sorted: seq<Message>, x: Message)
    requires Sound(l) && StrictlySorted(l, sorted) && forall i | 0 <= i < |sorted| :: sorted[i].id != x.id
    ensures StrictlySorted(l, Insert(l, sorted, x))
    ensures multiset(Insert(l, sorted, x)) == multiset(sorted) + multiset{x}
    decreases |sorted|
  {
    hide Sound;
    if sorted != [] {
      var head, tail := sorted[0], sorted[1..];
      assert sorted == [head] + tail;
      BeforeIsAnOrder(l, x, head, x);
      hide CompareMessages;
      if CompareMessages(l, x, head) < 0 {
        forall i | 0 <= i < |sorted| ensures Before(l, x, sorted[i]) {
          BeforeIsAnOrder(l, x, head, sorted[i]);
        }
        SortedCons(l, x, sorted);
      } else {
        InsertSorted(l, tail, x);
        var rest := Insert(l, tail, x);
        forall i | 0 <= i < |rest| ensures Before(l, head, rest[i]) {
          assert rest[i] in multiset(rest);
          assert rest[i] == x || rest[i] in tail;
        }
        SortedCons(l, head, rest);
      }
    }
  }

  lemma {:induction false} SortSorts(l: Locale, messages: seq<Message>)
    requires Sound(l) && DistinctIds(messages)
    ensures StrictlySorted(l, Sort(l, messages)) && multiset(Sort(l, messages)) == multiset(messages)
    decreases |messages|
  {
    if messages != [] {
      var init, last := messages[..|messages| - 1], messages[|messages| - 1];
      assert messages == init + [last];
      SortSorts(l, init);
      var sorted := Sort(l, init);
      forall i | 0 <= i < |sorted| ensures sorted[i].id != last.id {
        assert sorted[i] in multiset(init);
      }
      InsertSorted(l, sorted, last);
    }
  }

  // ---- One message into a list ----------------------------------------------

  function FromList(messages: seq<Message>): D.Dict<string, Message> {
    if messages == [] then D.Empty()
    else
      var last := messages[|messages| - 1];
      D.Put(FromList(messages[..|messages| - 1]), last.id, last)
  }

  function Values(items: map<string, Message>, order: seq<string>): (v: seq<Message>)
    requires forall k | k in order :: k in items
    ensures |v| == |order| && forall i | 0 <= i < |v| :: v[i] == items[order[i]]
  {
    if order == [] then [] else [items[order[0]]] + Values(items, order[1..])
  }

  lemma {:induction false} FromListValid(messages: seq<Message>)
    ensures D.Valid(FromList(messages))
    ensures forall id | id in FromList(messages).items :: FromList(messages).items[id].id == id
  {
    if messages != [] {
      var init, last := messages[..|messages| - 1], messages[|messages| - 1];
      FromListValid(init);
      D.PutValid(FromList(init), last.id, last);
    }
  }

  function UpsertMessage(l: Locale, messages: seq<Message>, incoming: Message): seq<Message> {
    var byId := D.Put(FromList(messages), incoming.id, incoming);
    FromListValid(messages + [incoming]);
    assert (messages + [incoming])[..|messages|] == messages;
    Sort(l, Values(byId.items, byId.order))
  }

  /** The list is the map, laid out in order. */
  ghost predicate Represents(l: Locale, messages: seq<Message>, m: map<string, Message>) {
    && StrictlySorted(l, messages)
    && (forall x | x in messages :: x.id in m && m[x.id] == x)
    && (forall id | id in m :: m[id].id == id && m[id] in messages)
  }

  lemma {:induction false} FromListItems(messages: seq<Message>, m: map<string, Message>)
    requires DistinctIds(messages)
    requires forall x | x in messages :: x.id in m && m[x.id] == x
    ensures forall x | x in messages :: x.id in FromList(messages).items && FromList(messages).items[x.id] == x
    ensures forall id | id in FromList(messages).items :: FromList(messages).items[id] in messages
  {
    if messages != [] {
      var init, last := messages[..|messages| - 1], messages[|messages| - 1];
      assert messages == init + [last];
      FromListItems(init, m);
    }
  }

  lemma SortedIsDistinct(l: Locale, messages: seq<Message>)
    requires Sound(l) && StrictlySorted(l, messages)
    requires forall i, j | 0 <= i < j < |messages| && messages[i].id == messages[j].id :: messages[i] == messages[j]
    ensures DistinctIds(messages)
  {
    forall i, j | 0 <= i < j < |messages| ensures messages[i].id != messages[j].id {
      assert Before(l, messages[i], messages[j]);
      BeforeIsAnOrder(l, messages[i], messages[j], messages[j]);
    }
  }

  lemma RepresentedItems(l: Locale, messages: seq<Message>, m: map<string, Message>)
    requires Sound(l) && Represents(l, messages, m)
    ensures FromList(messages).items == m
  {
    forall i, j | 0 <= i < j < |messages| && messages[i].id == messages[j].id ensures messages[i] == messages[j] {
      assert messages[i] in messages && messages[j] in messages;
    }
    SortedIsDistinct(l, messages);
    FromListItems(messages, m);
    hide FromList;
    var items := FromList(messages).items;
    forall id | id in m ensures id in items && items[id] == m[id] {
      assert m[id] in messages;
    }
    FromListKeys(messages);
  }

  lemma FromListKeys(messages: seq<Message>)
    ensures forall id | id in FromList(messages).items :: FromList(messages).items[id].id == id
  {
    FromListValid(messages);
  }

  /** Laying out a map whose entries know their keys, whatever the insertion order was. */
  lemma LayOut(l: Locale, d: D.Dict<string, Message>)
    requires Sound(l) && D.Valid(d) && forall id | id in d.items :: d.items[id].id == id
    ensures (forall k | k in d.order :: k in d.items) && Represents(l, Sort(l, Values(d.items, d.order)), d.items)
  {
    hide Sort, Sound, Values, DistinctIds, StrictlySorted, D.Valid;
    ValuesContents(d);
    var v := Values(d.items, d.order);
    SortSorts(l, v);
    var sorted := Sort(l, v);
    forall x ensures x in sorted <==> x in v {
      assert x in multiset(sorted) <==> x in multiset(v);
    }
  }

  lemma ValuesContents(d: D.Dict<string, Message>)
    requires D.Valid(d) && forall id | id in d.items :: d.items[id].id == id
    ensures (forall k | k in d.order :: k in d.items) && DistinctIds(Values(d.items, d.order))
    ensures forall x | x in Values(d.items, d.order) :: x.id in d.items && d.items[x.id] == x
    ensures forall id | id in d.items :: d.items[id] in Values(d.items, d.order)
  {
    hide Values;
    var v := Values(d.items, d.order);
    assert forall i | 0 <= i < |v| :: v[i].id == d.order[i];
    forall id | id in d.items ensures d.items[id] in v {
      ListedValue(d.items, d.order, id);
    }
  }

  lemma ListedValue(items: map<string, Message>, order: seq<string>, id: string)
    requires (forall k | k in order :: k in items) && id in order
    ensures items[id] in Values(items, order)
  {
    hide Values;
    var i :| 0 <= i < |order| && order[i] == id;
    assert Values(items, order)[i] == items[id];
  }

  /** Upserting is updating the map: one copy per identifier, the incoming one for its own. */
  lemma UpsertUpdates(l: Locale, messages: seq<Message>, incoming: Message, m: map<string, Message>)
    requires Sound(l) && Represents(l, messages, m)
    ensures Represents(l, UpsertMessage(l, messages, incoming), m[incoming.id := incoming])
  {
    RepresentedItems(l, messages, m);
    FromListValid(messages);
    D.PutValid(FromList(messages), incoming.id, incoming);
    LayOut(l, D.Put(FromList(messages), incoming.id, incoming));
  }

  /** A map has one layout. */
  lemma {:induction false} LayoutIsUnique(l: Locale, a: seq<Message>, b: seq<Message>)
    requires Sound(l) && StrictlySorted(l, a) && StrictlySorted(l, b)
    requires forall x :: x in a <==> x in b
    ensures a == b
    decreases |a|
  {
    hide Sound;
    if b != [] {
      BothNonEmpty(a, b);
    }
    if a != [] {
      assert a[0] in a && a[0] in b;
      assert b[0] in b && b[0] in a;
      FirstIsLeast(l, a, b[0]);
      FirstIsLeast(l, b, a[0]);
      BeforeIsAnOrder(l, a[0], b[0], a[0]);
      assert a[0] == b[0];
      TailContents(l, a);
      TailContents(l, b);
      LayoutIsUnique(l, a[1..], b[1..]);
      assert a == [a[0]] + a[1..] && b == [b[0]] + b[1..];
    }
  }

  lemma BothNonEmpty(a: seq<Message>, b: seq<Message>)
    requires b != [] && forall x :: x in a <==> x in b
    ensures a != []
  {
    assert b[0] in a;
  }

  lemma FirstIsLeast(l: Locale, a: seq<Message>, x: Message)
    requires StrictlySorted(l, a) && x in a
    ensures x == a[0] || Before(l, a[0], x)
  {
  }

  lemma TailContents(l: Locale, a: seq<Message>)
    requires Sound(l) && StrictlySorted(l, a) && a != []
    ensures StrictlySorted(l, a[1..])
    ensures forall x :: x in a[1..] <==> x in a && x != a[0]
  {
    assert a == [a[0]] + a[1..];
    forall x | x in a[1..] ensures x != a[0] {
      BeforeIsAnOrder(l, a[0], x, x);
    }
  }

  // ---- Pages ----------------------------------------------------------------

  function UpsertAll(l: Locale, messages: seq<Message>, incoming: seq<Message>): seq<Message>
    decreases |incoming|
  {
    if incoming == [] then messages else UpsertAll(l, UpsertMessage(l, messages, incoming[0]), incoming[1..])
  }

  function Ids(messages: seq<Message>): set<string> {
    set x | x in messages :: x.id
  }

  /** Those not yet persisted, in their order. */
  function Unpersisted(pending: seq<Pending>, persisted: set<string>): (kept: seq<Pending>)
    ensures forall p :: p in kept <==> p in pending && p.id !in persisted
  {
    if pending == [] then []
    else
      var rest := Unpersisted(pending[1..], persisted);
      assert pending == [pending[0]] + pending[1..];
      if pending[0].id in persisted then rest else [pending[0]] + rest
  }

  function MergeHistory(l: Locale, current: MessageHistory, incoming: MessageHistory): MessageHistory {
    var messages := UpsertAll(l, current.messages, incoming.messages);
    var keeps :=
      && current.messages != []
      && (incoming.messages == [] || CompareMessages(l, current.messages[0], incoming.messages[0]) <= 0);
    MessageHistory(messages,
                   Unpersisted(incoming.pending, Ids(messages)),
                   incoming.summary,
                   if keeps then current.hasMoreBefore else incoming.hasMoreBefore)
  }

  /** The history after pages arrived one by one. */
  function Fold(l: Locale, pages: seq<MessageHistory>): MessageHistory {
    if pages == [] then EMPTY else MergeHistory(l, Fold(l, pages[..|pages| - 1]), pages[|pages| - 1])
  }

  /** The latest copy of every identifier. */
  function Latest(m: map<string, Message>, messages: seq<Message>): map<string, Message>
    decreases |messages|
  {
    if messages == [] then m else Latest(m[messages[0].id := messages[0]], messages[1..])
  }

  function AllMessages(pages: seq<MessageHistory>): seq<Message> {
    if pages == [] then [] else AllMessages(pages[..|pages| - 1]) + pages[|pages| - 1].messages
  }

  lemma {:induction false} UpsertAllUpdates(l: Locale, messages: seq<Message>, incoming: seq<Message>,
                                            m: map<string, Message>)
    requires Sound(l) && Represents(l, messages, m)
    ensures Represents(l, UpsertAll(l, messages, incoming), Latest(m, incoming))
    decreases |incoming|
  {
    if incoming != [] {
      hide Sound, Represents, UpsertMessage;
      UpsertUpdates(l, messages, incoming[0], m);
      UpsertAllUpdates(l, UpsertMessage(l, messages, incoming[0]), incoming[1..], m[incoming[0].id := incoming[0]]);
    }
  }

  lemma {:induction false} LatestAppend(m: map<string, Message>, a: seq<Message>, b: seq<Message>)
    ensures Latest(m, a + b) == Latest(Latest(m, a), b)
    decreases |a|
  {
    if a == [] {
      assert a + b == b;
    } else {
      assert (a + b)[0] == a[0] && (a + b)[1..] == a[1..] + b;
      LatestAppend(m[a[0].id := a[0]], a[1..], b);
    }
  }

  /** An entry of the latest map is the last copy in the list, or the one that was there. */
  lemma {:induction false} LatestIsLast(m: map<string, Message>, messages: seq<Message>, id: string)
    ensures id in Latest(m, messages) <==> id in m || exists i :: 0 <= i < |messages| && messages[i].id == id
    ensures forall i | 0 <= i < |messages| && messages[i].id == id
                       && (forall j | i < j < |messages| :: messages[j].id != id) ::
                            Latest(m, messages)[id] == messages[i]
    ensures id in m && (forall i | 0 <= i < |messages| :: messages[i].id != id) ==> Latest(m, messages)[id] == m[id]
    decreases |messages|
  {
    if messages != [] {
      var next := m[messages[0].id := messages[0]];
      LatestIsLast(next, messages[1..], id);
      assert forall i | 0 <= i < |messages[1..]| :: messages[1..][i] == messages[i + 1];
    }
  }

  /**
   Whatever pages arrived: the messages are strictly sorted, one for each identifier that
   occurred, each the last copy received; no pending message is also persisted; and the
   rest is what the last page said.
   */
  lemma {:induction false} FoldIsLatest(l: Locale, pages: seq<MessageHistory>)
    requires Sound(l)
    ensures Represents(l, Fold(l, pages).messages, Latest(map[], AllMessages(pages)))
    ensures forall p | p in Fold(l, pages).pending :: p.id !in Ids(Fold(l, pages).messages)
    ensures pages != [] ==> Fold(l, pages).summary == pages[|pages| - 1].summary
    decreases |pages|
  {
    if pages != [] {
      var init, last := pages[..|pages| - 1], pages[|pages| - 1];
      hide Sound, Represents, UpsertMessage;
      FoldIsLatest(l, init);
      UpsertAllUpdates(l, Fold(l, init).messages, last.messages, Latest(map[], AllMessages(init)));
      LatestAppend(map[], AllMessages(init), last.messages);
    } else {
      assert Represents(l, [], map[]);
    }
  }

  predicate CopiesAgree(messages: seq<Message>) {
    forall i, j | 0 <= i < |messages| && 0 <= j < |messages| && messages[i].id == messages[j].id ::
      messages[i] == messages[j]
  }

  /** When copies agree, the latest map is the messages themselves. */
  lemma {:induction false} LatestOfAgreeing(messages: seq<Message>)
    requires CopiesAgree(messages)
    ensures forall x :: x in messages <==> x.id in Latest(map[], messages) && Latest(map[], messages)[x.id] == x
    decreases |messages|
  {
    if messages != [] {
      var init, last := messages[..|messages| - 1], messages[|messages| - 1];
      assert messages == init + [last];
      LatestAppend(map[], init, [last]);
      LatestOfAgreeing(init);
      var m := Latest(map[], init);
      assert Latest(m, [last]) == m[last.id := last] by { assert [last][1..] == []; }
      forall x ensures x in messages <==> x.id in m[last.id := last] && m[last.id := last][x.id] == x {
        if x in init && x.id == last.id {
          var i :| 0 <= i < |init| && init[i] == x;
          assert messages[i] == x && messages[|messages| - 1] == last;
        }
      }
    }
  }

  /** With agreeing copies the list depends only on which messages were received. */
  lemma OrderAndRepetitionDoNotMatter(l: Locale, pages: seq<MessageHistory>, others: seq<MessageHistory>)
    requires Sound(l) && CopiesAgree(AllMessages(pages)) && CopiesAgree(AllMessages(others))
    requires forall x :: x in AllMessages(pages) <==> x in AllMessages(others)
    ensures Fold(l, pages).messages == Fold(l, others).messages
    ensures forall x :: x in Fold(l, pages).messages <==> x in AllMessages(pages)
  {
    hide Sound, CopiesAgree;
    FoldContents(l, pages);
    FoldContents(l, others);
    LayoutIsUnique(l, Fold(l, pages).messages, Fold(l, others).messages);
  }

  lemma FoldContents(l: Locale, pages: seq<MessageHistory>)
    requires Sound(l) && CopiesAgree(AllMessages(pages))
    ensures StrictlySorted(l, Fold(l, pages).messages)
    ensures forall x :: x in Fold(l, pages).messages <==> x in AllMessages(pages)
  {
    hide Sound, CopiesAgree, StrictlySorted;
    FoldIsLatest(l, pages);
    LatestOfAgreeing(AllMessages(pages));
  }

  // ---- Whether older messages are missing -----------------------------------

  /** A least element of a strictly sorted list stands first. */
  lemma LeastIsFirst(l: Locale, a: seq<Message>, x: Message)
    requires Sound(l) && StrictlySorted(l, a) && x in a
    requires forall y | y in a :: CompareMessages(l, x, y) <= 0
    ensures a[0] == x
  {
    FirstIsLeast(l, a, x);
    assert a[0] in a;
    BeforeIsAnOrder(l, a[0], x, x);
  }

  predicate Sorted(l: Locale, messages: seq<Message>) {
    forall i, j | 0 <= i <= j < |messages| :: CompareMessages(l, messages[i], messages[j]) <= 0
  }

  lemma CompareTransitive(l: Locale, a: Message, b: Message, c: Message)
    requires Sound(l) && CompareMessages(l, a, b) <= 0 && CompareMessages(l, b, c) <= 0
    ensures CompareMessages(l, a, c) <= 0
  {
    TimeFacts(l.time, a.createdAt, b.createdAt, c.createdAt);
    TimeFacts(l.id, a.id, b.id, c.id);
  }

  lemma AgreeEarlier(a: seq<Message>, b: seq<Message>)
    requires CopiesAgree(a + b)
    ensures CopiesAgree(a)
  {
    assert forall i | 0 <= i < |a| :: (a + b)[i] == a[i];
  }

  /** The first message after a merge is the older of the two first ones. */
  lemma FirstOfMerge(l: Locale, current: seq<Message>, incoming: seq<Message>, merged: seq<Message>)
    requires Sound(l) && StrictlySorted(l, current) && StrictlySorted(l, merged) && Sorted(l, incoming)
    requires forall x :: x in merged <==> x in current || x in incoming
    ensures merged == [] <==> current == [] && incoming == []
    ensures current != [] && (incoming == [] || CompareMessages(l, current[0], incoming[0]) <= 0) ==>
            merged[0] == current[0]
    ensures incoming != [] && (current == [] || CompareMessages(l, current[0], incoming[0]) > 0) ==>
            merged[0] == incoming[0]
  {
    assert |current| > 0 ==> current[0] in merged;
    assert |incoming| > 0 ==> incoming[0] in merged;
    assert |merged| > 0 ==> merged[0] in merged;
    if current != [] {
      forall y | y in current ensures CompareMessages(l, current[0], y) <= 0 {
        FirstIsLeast(l, current, y);
        BeforeIsAnOrder(l, y, y, y);
      }
    }
    if current != [] && incoming != [] {
      FirstOfTwo(l, current, incoming, merged);
    } else if current != [] {
      LeastIsFirst(l, merged, current[0]);
    } else if incoming != [] {
      LeastIsFirst(l, merged, incoming[0]);
    }
  }

  lemma FirstOfTwo(l: Locale, current: seq<Message>, incoming: seq<Message>, merged: seq<Message>)
    requires Sound(l) && StrictlySorted(l, merged) && Sorted(l, incoming) && current != [] && incoming != []
    requires forall y | y in current :: CompareMessages(l, current[0], y) <= 0
    requires forall x :: x in merged <==> x in current || x in incoming
    ensures merged != []
    ensures merged[0] == if CompareMessages(l, current[0], incoming[0]) <= 0 then current[0] else incoming[0]
  {
    hide Sound;
    var c, i := current[0], incoming[0];
    assert c in merged && i in merged;
    var least := if CompareMessages(l, c, i) <= 0 then c else i;
    CompareEitherWay(l, c, i);
    forall y | y in merged ensures CompareMessages(l, least, y) <= 0 {
      if y in current && least == i {
        CompareTransitive(l, i, c, y);
      }
      if y in incoming && least == c {
        CompareTransitive(l, c, i, y);
      }
    }
    LeastIsFirst(l, merged, least);
  }

  lemma CompareEitherWay(l: Locale, a: Message, b: Message)
    requires Sound(l)
    ensures CompareMessages(l, a, b) > 0 ==> CompareMessages(l, b, a) <= 0
  {
    TimeFacts(l.time, a.createdAt, b.createdAt, a.createdAt);
    TimeFacts(l.id, a.id, b.id, a.id);
  }

  /**
   Whether anything older is missing is what the first page to bring the oldest loaded
   message said; the last page says it while nothing is loaded.
   */
  lemma {:induction false} OldestPageDecides(l: Locale, pages: seq<MessageHistory>) returns (k: nat)
    requires Sound(l) && pages != [] && (forall p | p in pages :: Sorted(l, p.messages))
    requires CopiesAgree(AllMessages(pages))
    ensures k < |pages| && Fold(l, pages).hasMoreBefore == pages[k].hasMoreBefore
    ensures Fold(l, pages).messages == [] ==> k == |pages| - 1
    ensures Fold(l, pages).messages != [] ==>
              && pages[k].messages != [] && pages[k].messages[0] == Fold(l, pages).messages[0]
              && forall j | 0 <= j < k :: pages[j].messages == [] || pages[j].messages[0] != Fold(l, pages).messages[0]
    decreases |pages|
  {
    hide Sound, CopiesAgree, Fold, AllMessages, Sorted, CompareMessages;
    var n := |pages| - 1;
    var init, last := pages[..n], pages[n];
    MergeLast(l, pages);
    k := n;
    if n > 0 {
      var earlier := OldestPageDecides(l, init);
      if Fold(l, init).messages != [] &&
         (last.messages == [] || CompareMessages(l, Fold(l, init).messages[0], last.messages[0]) <= 0)
      {
        k := earlier;
      } else if last.messages != [] {
        NewerFirst(l, init, last.messages[0]);
      }
    }
  }

  /** Page `k` begins with a message older than everything that was loaded before it. */
  predicate Leads(l: Locale, pages: seq<MessageHistory>, k: nat) {
    && k < |pages| && pages[k].messages != []
    && forall x | x in Fold(l, pages[..k]).messages :: Before(l, pages[k].messages[0], x)
  }

  lemma FirstAgainstAll(l: Locale, loaded: seq<Message>, x: Message)
    requires Sound(l) && StrictlySorted(l, loaded) && loaded != []
    ensures (forall y | y in loaded :: Before(l, x, y)) <==> CompareMessages(l, loaded[0], x) > 0
  {
    CompareEitherWay(l, x, loaded[0]);
    hide Sound;
    assert loaded[0] in loaded;
    if CompareMessages(l, loaded[0], x) > 0 {
      forall y | y in loaded ensures Before(l, x, y) {
        BeforeIsAnOrder(l, x, loaded[0], y);
      }
    }
  }

  lemma MergeDecides(l: Locale, pages: seq<MessageHistory>)
    requires Sound(l) && pages != []
    ensures var n := |pages| - 1;
            var current, last := Fold(l, pages[..n]), pages[n];
            && (Fold(l, pages).messages == [] <==> current.messages == [] && last.messages == [])
            && (Leads(l, pages, n) ==> Fold(l, pages).hasMoreBefore == last.hasMoreBefore)
            && (!Leads(l, pages, n) && current.messages != [] ==>
                  Fold(l, pages).hasMoreBefore == current.hasMoreBefore)
            && (current.messages == [] && last.messages == [] ==> Fold(l, pages).hasMoreBefore == last.hasMoreBefore)
            && (current.messages == [] && last.messages != [] ==> Leads(l, pages, n))
  {
    var n := |pages| - 1;
    var current, last := Fold(l, pages[..n]), pages[n];
    FoldIsLatest(l, pages[..n]);
    StaysLoaded(l, current.messages, last.messages, Latest(map[], AllMessages(pages[..n])));
    hide Sound, CompareMessages, UpsertAll, Latest;
    if current.messages != [] && last.messages != [] {
      FirstAgainstAll(l, current.messages, last.messages[0]);
    }
  }

  lemma StaysLoaded(l: Locale, messages: seq<Message>, incoming: seq<Message>, m: map<string, Message>)
    requires Sound(l) && Represents(l, messages, m)
    ensures UpsertAll(l, messages, incoming) == [] <==> messages == [] && incoming == []
  {
    hide Sound, StrictlySorted;
    UpsertAllUpdates(l, messages, incoming, m);
    if messages != [] {
      assert messages[0] in messages;
      LatestIsLast(m, incoming, messages[0].id);
    } else if incoming != [] {
      LatestIsLast(m, incoming, incoming[0].id);
    }
  }

  lemma NothingLoaded(l: Locale)
    ensures Fold(l, []).messages == []
  {
  }

  lemma LeadsEarlier(l: Locale, pages: seq<MessageHistory>, n: nat, j: nat)
    requires j < n <= |pages|
    ensures Leads(l, pages, j) <==> Leads(l, pages[..n], j)
  {
    assert pages[..n][..j] == pages[..j];
  }

  /**
   For all pages: whether anything older is missing is what the last page said that began with a
   message older than everything loaded before; the last page says it while nothing is loaded.
   */
  lemma {:induction false} LastLeaderDecides(l: Locale, pages: seq<MessageHistory>) returns (k: nat)
    requires Sound(l) && pages != []
    ensures k < |pages| && Fold(l, pages).hasMoreBefore == pages[k].hasMoreBefore
    ensures Fold(l, pages).messages == [] ==> k == |pages| - 1
    ensures Fold(l, pages).messages != [] ==> Leads(l, pages, k) && forall j | k < j < |pages| :: !Leads(l, pages, j)
    decreases |pages|
  {
    hide Sound, Fold, Leads;
    var n := |pages| - 1;
    var init := pages[..n];
    MergeDecides(l, pages);
    k := n;
    if Fold(l, init).messages != [] && !Leads(l, pages, n) {
      assert init != [] by { NothingLoaded(l); }
      k := LastLeaderDecides(l, init);
      forall j | 0 <= j < n ensures Leads(l, pages, j) <==> Leads(l, init, j) {
        LeadsEarlier(l, pages, n, j);
      }
    }
  }

  lemma LeastOfRepresented(l: Locale, messages: seq<Message>, m: map<string, Message>, x: Message)
    requires Sound(l) && Represents(l, messages, m) && x.id in m && m[x.id] == x
    requires forall id | id in m && id != x.id :: CompareMessages(l, x, m[id]) <= 0
    ensures messages != [] && messages[0] == x
  {
    BeforeIsAnOrder(l, x, x, x);
    hide Sound, CompareMessages;
    LeastIsFirst(l, messages, x);
  }

  function Page(messages: seq<Message>, more: bool): MessageHistory {
    EMPTY.(messages := messages, hasMoreBefore := more)
  }

  lemma OnePage(l: Locale, a: Message)
    requires Sound(l)
    ensures var r := Fold(l, [Page([a], false)]);
            Represents(l, r.messages, map[a.id := a]) && r.messages != [] && r.messages[0] == a && !r.hasMoreBefore
  {
    hide Sound, UpsertMessage, CompareMessages;
    var copies: seq<Message> := [a];
    assert copies[1..] == [];
    UpsertAllUpdates(l, [], copies, map[]);
    assert Latest(map[], copies) == map[a.id := a];
    var pages: seq<MessageHistory> := [Page([a], false)];
    assert pages[..0] == [] && pages[0].messages == copies;
    assert Fold(l, pages) == MergeHistory(l, EMPTY, pages[0]);
    assert Fold(l, pages).messages == UpsertAll(l, [], copies);
    LeastOfRepresented(l, Fold(l, pages).messages, map[a.id := a], a);
  }

  /** A first page with one message, and a page whose first message is not older. */
  lemma TwoPages(l: Locale, a: Message, incoming: seq<Message>)
    requires Sound(l) && incoming != [] && CompareMessages(l, a, incoming[0]) <= 0
    ensures var r := Fold(l, [Page([a], false), Page(incoming, true)]);
            Represents(l, r.messages, Latest(map[a.id := a], incoming)) && !r.hasMoreBefore
  {
    hide Sound, CompareMessages, Represents, UpsertAll, Latest;
    OnePage(l, a);
    var pages := [Page([a], false), Page(incoming, true)];
    assert pages[..1] == [Page([a], false)];
    UpsertAllUpdates(l, Fold(l, [Page([a], false)]).messages, incoming, map[a.id := a]);
  }

  lemma LatestOfTwo(m: map<string, Message>, a: Message, b: Message)
    ensures Latest(m, [a, b]) == m[a.id := a][b.id := b]
  {
    var two, one: seq<Message> := [a, b], [b];
    assert two[1..] == one && one[1..] == [];
    assert Latest(m[a.id := a], one) == Latest(m[a.id := a][b.id := b], []);
  }

  /**
   Unsorted pages: the second alone brings the oldest message and says that more is missing, but
   the first decides, because only first messages are compared.
   */
  lemma UnsortedPageIsOverruled(l: Locale, a: Message, b: Message, c: Message)
    requires Sound(l) && Before(l, a, b) && Before(l, b, c) && a.id != b.id && a.id != c.id
    ensures var r := Fold(l, [Page([b], false), Page([c, a], true)]);
            r.messages != [] && r.messages[0] == a && !r.hasMoreBefore
  {
    BeforeIsAnOrder(l, a, b, c);
    hide Sound, CompareMessages, Fold, Latest, Represents;
    TwoPages(l, b, [c, a]);
    LatestOfTwo(map[b.id := b], c, a);
    var m := Latest(map[b.id := b], [c, a]);
    LeastOfRepresented(l, Fold(l, [Page([b], false), Page([c, a], true)]).messages, m, a);
  }

  /** Copies that disagree: the oldest message moves behind one that the first page did not have. */
  lemma ChangedCopyIsOverruled(l: Locale, a: Message, later: Message, b: Message)
    requires Sound(l) && Before(l, a, b) && Before(l, b, later) && a.id == later.id && a.id != b.id
    ensures var r := Fold(l, [Page([a], false), Page([b, later], true)]);
            r.messages != [] && r.messages[0] == b && !r.hasMoreBefore
  {
    hide Sound, CompareMessages, Fold, Latest, Represents;
    TwoPages(l, a, [b, later]);
    LatestOfTwo(map[a.id := a], b, later);
    var m := Latest(map[a.id := a], [b, later]);
    LeastOfRepresented(l, Fold(l, [Page([a], false), Page([b, later], true)]).messages, m, b);
  }

  /** What the last page adds to the fold of the others. */
  lemma MergeLast(l: Locale, pages: seq<MessageHistory>)
    requires Sound(l) && pages != [] && (forall p | p in pages :: Sorted(l, p.messages))
    requires CopiesAgree(AllMessages(pages))
    ensures var init, last := pages[..|pages| - 1], pages[|pages| - 1];
            var current, merged := Fold(l, init), Fold(l, pages);
            var keeps := && current.messages != []
                         && (last.messages == [] || CompareMessages(l, current.messages[0], last.messages[0]) <= 0);
            && CopiesAgree(AllMessages(init))
            && (|pages| == 1 ==> current.messages == [])
            && merged.hasMoreBefore == (if keeps then current.hasMoreBefore else last.hasMoreBefore)
            && (merged.messages == [] <==> current.messages == [] && last.messages == [])
            && (merged.messages != [] ==>
                  merged.messages[0] == if keeps then current.messages[0] else last.messages[0])
  {
    var init, last := pages[..|pages| - 1], pages[|pages| - 1];
    assert last in pages;
    AgreeEarlier(AllMessages(init), last.messages);
    hide Sound, CopiesAgree, UpsertAll, Sorted, StrictlySorted, CompareMessages;
    FoldContents(l, init);
    FoldContents(l, pages);
    FirstOfMerge(l, Fold(l, init).messages, last.messages, Fold(l, pages).messages);
  }

  lemma EarlierFirsts(pages: seq<MessageHistory>)
    ensures forall j | 0 <= j < |pages| :: forall x | x in pages[j].messages :: x in AllMessages(pages)
  {
    if pages != [] {
      EarlierFirsts(pages[..|pages| - 1]);
    }
  }

  /** A message older than all received so far starts no earlier page. */
  lemma NewerFirst(l: Locale, pages: seq<MessageHistory>, x: Message)
    requires Sound(l) && CopiesAgree(AllMessages(pages))
    requires Fold(l, pages).messages == [] || CompareMessages(l, Fold(l, pages).messages[0], x) > 0
    ensures forall j | 0 <= j < |pages| :: pages[j].messages == [] || pages[j].messages[0] != x
  {
    hide CopiesAgree;
    FoldContents(l, pages);
    EarlierFirsts(pages);
    var messages := Fold(l, pages).messages;
    forall j | 0 <= j < |pages| && pages[j].messages != [] ensures pages[j].messages[0] != x {
      var y := pages[j].messages[0];
      assert y in messages;
      FirstIsLeast(l, messages, y);
      BeforeIsAnOrder(l, messages[0], y, y);
      BeforeIsAnOrder(l, y, y, y);
    }
  }

  // ---- The code -------------------------------------------------------------

  /** `upsertMessage`: fill a map by identifier, set the incoming message, sort the values. */
  method Upsert(l: Locale, messages: seq<Message>, incoming: Message) returns (r: seq<Message>)
    ensures r == UpsertMessage(l, messages, incoming)
  {
    var byId: D.Dict<string, Message> := D.Empty();
    for i := 0 to |messages|
      invariant byId == FromList(messages[..i])
    {
      assert messages[..i + 1][..i] == messages[..i];
      byId := D.Put(byId, messages[i].id, messages[i]);
    }
    assert messages[..|messages|] == messages;
    byId := D.Put(byId, incoming.id, incoming);
    FromListValid(messages + [incoming]);
    assert (messages + [incoming])[..|messages|] == messages;
    r := Sort(l, Values(byId.items, byId.order));
  }

  /** `mergeHistory`: the reduce over the incoming page, then what is left pending. */
  method Merge(l: Locale, current: MessageHistory, incoming: MessageHistory) returns (r: MessageHistory)
    ensures r == MergeHistory(l, current, incoming)
  {
    hide UpsertMessage;
    var messages := current.messages;
    for i := 0 to |incoming.messages|
      invariant UpsertAll(l, messages, incoming.messages[i..]) == UpsertAll(l, current.messages, incoming.messages)
    {
      assert incoming.messages[i..][0] == incoming.messages[i];
      assert incoming.messages[i..][1..] == incoming.messages[i + 1..];
      messages := Upsert(l, messages, incoming.messages[i]);
    }
    var persisted := set x | x in messages :: x.id;
    var pending: seq<Pending> := [];
    for i := |incoming.pending| downto 0
      invariant pending == Unpersisted(incoming.pending[i..], Ids(messages))
    {
      assert incoming.pending[i..][0] == incoming.pending[i] && incoming.pending[i..][1..] == incoming.pending[i + 1..];
      if incoming.pending[i].id !in persisted {
        pending := [incoming.pending[i]] + pending;
      }
    }
    var keeps :=
      && current.messages != []
      && (incoming.messages == [] || CompareMessages(l, current.messages[0], incoming.messages[0]) <= 0);
    r := MessageHistory(messages, pending, incoming.summary,
                        if keeps then current.hasMoreBefore else incoming.hasMoreBefore);
  }
}
