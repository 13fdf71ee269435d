/** Normalisation of fetched channel history before it is sent to the
    workflow: the messages are sorted by their `ts` string, oldest first
    (Python's `sorted`, which is stable), and then the `blocks` key is deleted
    from every message that has one. */
module History {
  import opened Json

  /** A message dict as `conversations.history` returns it; its `ts` key is a
      string such as "1712345678.123456". */
  type Message = m: map<string, Json> | "ts" in m && m["ts"].JStr? witness map["ts" := JStr("")]

  function Ts(m: Message): string {
    m["ts"].s
  }

  /** Python's `a <= b` on strings: lexicographic by code point, a proper
      prefix before any longer string. */
  predicate LexLe(a: string, b: string) {
    a == [] || (b != [] && (a[0] < b[0] || (a[0] == b[0] && LexLe(a[1..], b[1..]))))
  }

  /** `LexLe` is string `<=` as Python defines it: a is at most b exactly when
      a is a prefix of b or, at the first position where they differ, a's
      code point is smaller. */
  lemma {:induction false} LexLeFirstDifference(a: string, b: string)
    ensures LexLe(a, b) <==> a <= b || exists k :: 0 <= k < |a| && k < |b| && a[..k] == b[..k] && a[k] < b[k]
  {
    if a != [] && b != [] {
      if a[0] != b[0] {
        LexLeHead(a, b);
      } else {
        LexLeFirstDifference(a[1..], b[1..]);
        LexLeTail(a, b);
      }
    }
  }

  /** Strings whose first characters differ compare by those characters. */
  lemma LexLeHead(a: string, b: string)
    requires a != [] && b != [] && a[0] != b[0]
    ensures (a <= b || exists k :: 0 <= k < |a| && k < |b| && a[..k] == b[..k] && a[k] < b[k]) <==> a[0] < b[0]
  {
    if a[0] < b[0] {
      assert a[..0] == b[..0];
    }
  }

  /** Strings with the same first character compare as their tails do. */
  lemma LexLeTail(a: string, b: string)
    requires a != [] && b != [] && a[0] == b[0]
    ensures (a <= b || exists k :: 0 <= k < |a| && k < |b| && a[..k] == b[..k] && a[k] < b[k]) <==>
            (a[1..] <= b[1..] || exists k :: 0 <= k < |a| - 1 && k < |b| - 1 && a[1..][..k] == b[1..][..k] && a[1..][k] < b[1..][k])
  {
    if k :| 0 <= k < |a| && k < |b| && a[..k] == b[..k] && a[k] < b[k] {
      assert k > 0;
      assert a[1..][..k - 1] == a[..k][1..];
      assert b[1..][..k - 1] == b[..k][1..];
    }
    if k :| 0 <= k < |a| - 1 && k < |b| - 1 && a[1..][..k] == b[1..][..k] && a[1..][k] < b[1..][k] {
      assert a[..k + 1] == [a[0]] + a[1..][..k];
      assert b[..k + 1] == [b[0]] + b[1..][..k];
    }
    if a <= b {
      assert a[1..] <= b[1..];
    }
    if a[1..] <= b[1..] {
      assert a == [a[0]] + a[1..];
      assert b[..|a|] == [b[0]] + b[1..][..|a| - 1];
    }
  }

  lemma {:induction false} LexLeReflexive(a: string)
    ensures LexLe(a, a)
  {
    if a != [] {
      LexLeReflexive(a[1..]);
    }
  }

  lemma {:induction false} LexLeTotal(a: string, b: string)
    ensures LexLe(a, b) || LexLe(b, a)
  {
    if a != [] && b != [] && a[0] == b[0] {
      LexLeTotal(a[1..], b[1..]);
    }
  }

  lemma {:induction false} LexLeTransitive(a: string, b: string, c: string)
    requires LexLe(a, b) && LexLe(b, c)
    ensures LexLe(a, c)
  {
    if a != [] && b != [] && c != [] && a[0] == b[0] == c[0] {
      LexLeTransitive(a[1..], b[1..], c[1..]);
    }
  }

  lemma {:induction false} LexLeAntisymmetric(a: string, b: string)
    requires LexLe(a, b) && LexLe(b, a)
    ensures a == b
  {
    if a != [] && b != [] {
      LexLeAntisymmetric(a[1..], b[1..]);
      assert a == [a[0]] + a[1..] && b == [b[0]] + b[1..];
    }
  }

  predicate SortedByTs(s: seq<Message>) {
    forall i, j :: 0 <= i < j < |s| ==> LexLe(Ts(s[i]), Ts(s[j]))
  }

  /** Inserts `x` in front of the first element whose `ts` is not smaller. */
  function Insert(x: Message, s: seq<Message>): (r: seq<Message>)
    ensures multiset(r) == multiset(s) + multiset{x}
  {
    if s == [] || LexLe(Ts(x), Ts(s[0])) then [x] + s
    else
      assert s == [s[0]] + s[1..];
      [s[0]] + Insert(x, s[1..])
  }

  /** `sorted(messages, key=lambda x: x["ts"])`. */
  function SortByTs(s: seq<Message>): (r: seq<Message>)
    ensures multiset(r) == multiset(s)
    ensures |r| == |s|
  {
    if s == [] then []
    else
      assert s == [s[0]] + s[1..];
      Insert(s[0], SortByTs(s[1..]))
  }

  /** A lower bound on the `ts` of `x` and of every element of `s` bounds
      every element of `Insert(x, s)`. */
  lemma {:induction false} InsertBound(lo: string, x: Message, s: seq<Message>)
    requires LexLe(lo, Ts(x))
    requires forall k :: 0 <= k < |s| ==> LexLe(lo, Ts(s[k]))
    ensures forall k :: 0 <= k < |Insert(x, s)| ==> LexLe(lo, Ts(Insert(x, s)[k]))
  {
    if s != [] && !LexLe(Ts(x), Ts(s[0])) {
      InsertBound(lo, x, s[1..]);
    }
  }

  lemma {:induction false} InsertSorted(x: Message, s: seq<Message>)
    requires SortedByTs(s)
    ensures SortedByTs(Insert(x, s))
  {
    if s == [] {
    } else if LexLe(Ts(x), Ts(s[0])) {
      forall j | 0 < j < |s|
        ensures LexLe(Ts(x), Ts(s[j]))
      {
        LexLeTransitive(Ts(x), Ts(s[0]), Ts(s[j]));
      }
    } else {
      LexLeTotal(Ts(x), Ts(s[0]));
      InsertSorted(x, s[1..]);
      InsertBound(Ts(s[0]), x, s[1..]);
      var r := Insert(x, s[1..]);
      assert Insert(x, s) == [s[0]] + r;
      forall i, j | 0 <= i < j < |Insert(x, s)|
        ensures LexLe(Ts(Insert(x, s)[i]), Ts(Insert(x, s)[j]))
      {
        if i > 0 {
          assert Insert(x, s)[i] == r[i - 1] && Insert(x, s)[j] == r[j - 1];
        }
      }
    }
  }

  /** The sort orders the messages by `ts`, oldest first. */
  lemma {:induction false} SortByTsSorted(s: seq<Message>)
    ensures SortedByTs(SortByTs(s))
  {
    if s != [] {
      SortByTsSorted(s[1..]);
      InsertSorted(s[0], SortByTs(s[1..]));
    }
  }

  /** The messages whose `ts` is `ts`, in their order in `s`. */
  function WithTs(s: seq<Message>, ts: string): seq<Message> {
    if s == [] then []
    else (if Ts(s[0]) == ts then [s[0]] else []) + WithTs(s[1..], ts)
  }

  lemma {:induction false} InsertWithTs(x: Message, s: seq<Message>, ts: string)
    ensures WithTs(Insert(x, s), ts) == (if Ts(x) == ts then [x] else []) + WithTs(s, ts)
  {
    if s == [] || LexLe(Ts(x), Ts(s[0])) {
      assert ([x] + s)[1..] == s;
    } else {
      var r := Insert(x, s[1..]);
      InsertWithTs(x, s[1..], ts);
      assert ([s[0]] + r)[1..] == r;
      var head := if Ts(s[0]) == ts then [s[0]] else [];
      assert WithTs(Insert(x, s), ts) == head + WithTs(r, ts);
      assert WithTs(s, ts) == head + WithTs(s[1..], ts);
      if Ts(x) == ts {
        LexLeReflexive(ts);
        assert head == [];
      }
    }
  }

  /** The sort is stable: the messages sharing a `ts` keep their relative order. */
  lemma {:induction false} SortByTsStable(s: seq<Message>, ts: string)
    ensures WithTs(SortByTs(s), ts) == WithTs(s, ts)
  {
    if s != [] {
      SortByTsStable(s[1..], ts);
      InsertWithTs(s[0], SortByTs(s[1..]), ts);
    }
  }

  lemma {:induction false} WithTsMember(s: seq<Message>, ts: string, x: Message)
    requires x in WithTs(s, ts)
    ensures x in s && Ts(x) == ts
  {
    if s != [] && x in WithTs(s[1..], ts) {
      WithTsMember(s[1..], ts, x);
    }
  }

  lemma {:induction false} WithTsOwn(s: seq<Message>, i: nat)
    requires i < |s|
    ensures s[i] in WithTs(s, Ts(s[i]))
  {
    if i > 0 {
      WithTsOwn(s[1..], i - 1);
    }
  }

  /** Two sequences sorted by `ts` that list the same messages for every `ts`,
      in the same order, are equal. */
  lemma {:induction false} SortedStableUnique(t: seq<Message>, u: seq<Message>)
    requires SortedByTs(t) && SortedByTs(u)
    requires forall ts :: WithTs(t, ts) == WithTs(u, ts)
    ensures t == u
  {
    if t == [] && u != [] {
      WithTsOwn(u, 0);
      assert false;
    } else if t != [] && u == [] {
      WithTsOwn(t, 0);
      assert false;
    } else if t != [] {
      var a, b := Ts(t[0]), Ts(u[0]);
      WithTsOwn(t, 0);
      WithTsMember(u, a, t[0]);
      var j :| 0 <= j < |u| && u[j] == t[0];
      if j == 0 { LexLeReflexive(b); }
      WithTsOwn(u, 0);
      WithTsMember(t, b, u[0]);
      var k :| 0 <= k < |t| && t[k] == u[0];
      if k == 0 { LexLeReflexive(a); }
      LexLeAntisymmetric(a, b);
      assert WithTs(t, a) == [t[0]] + WithTs(t[1..], a);
      assert WithTs(u, a) == [u[0]] + WithTs(u[1..], a);
      forall ts
        ensures WithTs(t[1..], ts) == WithTs(u[1..], ts)
      {
        if ts != a {
          assert WithTs(t, ts) == WithTs(t[1..], ts);
          assert WithTs(u, ts) == WithTs(u[1..], ts);
        } else {
          var x, y := WithTs(t[1..], a), WithTs(u[1..], a);
          assert ([t[0]] + x)[1..] == x;
          assert ([u[0]] + y)[1..] == y;
        }
      }
      SortedStableUnique(t[1..], u[1..]);
      assert t == [t[0]] + t[1..] && u == [u[0]] + u[1..];
    }
  }

  /** `SortByTs` is the only order of the messages that is sorted by `ts` and
      keeps the messages sharing a `ts` in their fetched order, which is what
      Python promises of `sorted` with a key. */
  lemma SortByTsUnique(s: seq<Message>, t: seq<Message>)
    requires SortedByTs(t)
    requires forall ts :: WithTs(t, ts) == WithTs(s, ts)
    ensures t == SortByTs(s)
  {
    SortByTsSorted(s);
    forall ts
      ensures WithTs(t, ts) == WithTs(SortByTs(s), ts)
    {
      SortByTsStable(s, ts);
    }
    SortedStableUnique(t, SortByTs(s));
  }

  /** A message after `if "blocks" in m: del m["blocks"]`. */
  function WithoutBlocks(m: Message): (r: Message)
    ensures "blocks" !in r
    ensures forall key :: key in r <==> key in m && key != "blocks"
    ensures forall key :: key in r ==> r[key] == m[key]
  {
    m - {"blocks"}
  }

  function AllWithoutBlocks(s: seq<Message>): (r: seq<Message>)
    ensures |r| == |s|
  {
    if s == [] then [] else [WithoutBlocks(s[0])] + AllWithoutBlocks(s[1..])
  }

  lemma {:induction false} AllWithoutBlocksAt(s: seq<Message>, i: nat)
    requires i < |s|
    ensures AllWithoutBlocks(s)[i] == WithoutBlocks(s[i])
  {
    if i > 0 {
      AllWithoutBlocksAt(s[1..], i - 1);
    }
  }

  lemma AllWithoutBlocksCons(x: Message, s: seq<Message>)
    ensures AllWithoutBlocks([x] + s) == [WithoutBlocks(x)] + AllWithoutBlocks(s)
  {
    assert ([x] + s)[1..] == s;
  }

  lemma {:induction false} InsertWithoutBlocks(x: Message, s: seq<Message>)
    ensures multiset(AllWithoutBlocks(Insert(x, s))) == multiset{WithoutBlocks(x)} + multiset(AllWithoutBlocks(s))
  {
    if s == [] || LexLe(Ts(x), Ts(s[0])) {
      AllWithoutBlocksCons(x, s);
    } else {
      var r := Insert(x, s[1..]);
      InsertWithoutBlocks(x, s[1..]);
      AllWithoutBlocksCons(s[0], r);
      AllWithoutBlocksCons(s[0], s[1..]);
      assert s == [s[0]] + s[1..];
      calc {
        multiset(AllWithoutBlocks(Insert(x, s)));
        multiset(AllWithoutBlocks([s[0]] + r));
        multiset([WithoutBlocks(s[0])]) + multiset(AllWithoutBlocks(r));
        multiset([WithoutBlocks(s[0])]) + multiset{WithoutBlocks(x)} + multiset(AllWithoutBlocks(s[1..]));
        multiset{WithoutBlocks(x)} + multiset(AllWithoutBlocks(s));
      }
    }
  }

  /** Deleting the key from every sorted message gives the same messages as
      deleting it from every fetched message, counted with multiplicity. */
  lemma {:induction false} SortWithoutBlocks(s: seq<Message>)
    ensures multiset(AllWithoutBlocks(SortByTs(s))) == multiset(AllWithoutBlocks(s))
  {
    if s != [] {
      SortWithoutBlocks(s[1..]);
      InsertWithoutBlocks(s[0], SortByTs(s[1..]));
      calc {
        multiset(AllWithoutBlocks(SortByTs(s)));
        multiset(AllWithoutBlocks(Insert(s[0], SortByTs(s[1..]))));
        multiset{WithoutBlocks(s[0])} + multiset(AllWithoutBlocks(SortByTs(s[1..])));
        multiset{WithoutBlocks(s[0])} + multiset(AllWithoutBlocks(s[1..]));
        multiset([WithoutBlocks(s[0])] + AllWithoutBlocks(s[1..]));
        multiset(AllWithoutBlocks(s));
      }
    }
  }

  /** The normalisation the history handlers apply to fetched messages:
      `messages = sorted(messages, key=lambda x: x["ts"])`, then
      `for m in messages: if "blocks" in m: del m["blocks"]`. */
  method Normalize(history: seq<Message>) returns (messages: seq<Message>)
    ensures |messages| == |history|
    ensures multiset(messages) == multiset(AllWithoutBlocks(history))
    ensures SortedByTs(messages)
    ensures forall ts :: WithTs(messages, ts) == AllWithoutBlocks(WithTs(history, ts))
    ensures forall i :: 0 <= i < |messages| ==> messages[i] == WithoutBlocks(SortByTs(history)[i])
  {
    var sorted := SortByTs(history);
    messages := sorted;
    for i := 0 to |messages|
      invariant |messages| == |sorted|
      invariant forall j :: 0 <= j < i ==> messages[j] == WithoutBlocks(sorted[j])
      invariant forall j :: i <= j < |messages| ==> messages[j] == sorted[j]
    {
      if "blocks" in messages[i] {
        messages := messages[i := messages[i] - {"blocks"}];
      } else {
        assert messages[i] == WithoutBlocks(messages[i]);
      }
    }
    forall i | 0 <= i < |messages|
      ensures messages[i] == AllWithoutBlocks(sorted)[i]
    {
      AllWithoutBlocksAt(sorted, i);
    }
    assert messages == AllWithoutBlocks(sorted);
    SortWithoutBlocks(history);
    SortByTsSorted(history);
    forall ts
      ensures WithTs(messages, ts) == AllWithoutBlocks(WithTs(history, ts))
    {
      SortByTsStable(history, ts);
      WithTsWithoutBlocks(sorted, ts);
    }
  }

  /** Deleting `blocks` leaves `ts` alone, so it commutes with selecting the
      messages that share a `ts`. */
  lemma {:induction false} WithTsWithoutBlocks(s: seq<Message>, ts: string)
    ensures WithTs(AllWithoutBlocks(s), ts) == AllWithoutBlocks(WithTs(s, ts))
  {
    if s != [] {
      WithTsWithoutBlocks(s[1..], ts);
      var t := AllWithoutBlocks(s);
      var rest := WithTs(s[1..], ts);
      assert t[0] == WithoutBlocks(s[0]) && t[1..] == AllWithoutBlocks(s[1..]);
      assert Ts(t[0]) == Ts(s[0]);
      if Ts(s[0]) == ts {
        assert WithTs(s, ts) == [s[0]] + rest;
        AllWithoutBlocksCons(s[0], rest);
      } else {
        assert WithTs(s, ts) == rest;
      }
    }
  }
}
