/** The history list as values: insertion with eviction to ten entries,
    newest first, and removal by id. */
module History {
  import opened QrTypes

  /** The history never holds more than this many entries. */
  const MaxEntries := 10

  /** The first (newest) `MaxEntries` elements. */
  function Newest(h: seq<HistoryItem>): (r: seq<HistoryItem>)
    ensures |r| <= MaxEntries
  {
    if |h| <= MaxEntries then h else h[..MaxEntries]
  }

  /** `[newItem, ...history.slice(0, 9)]`: the new entry goes first, the
      older entries follow in their order, and the oldest beyond ten drops out. */
  function Pushed(item: HistoryItem, h: seq<HistoryItem>): (r: seq<HistoryItem>)
    ensures 1 <= |r| <= MaxEntries
    ensures |r| == if |h| < MaxEntries then |h| + 1 else MaxEntries
    ensures r[0] == item && r[1..] == h[..|r| - 1]
  {
    [item] + h[..if |h| < 9 then |h| else 9]
  }

  lemma PushedIsNewest(item: HistoryItem, h: seq<HistoryItem>)
    ensures Pushed(item, h) == Newest([item] + h)
  {
  }

  /** Cutting to the newest ten twice is cutting once. */
  lemma NewestOfNewest(a: seq<HistoryItem>, b: seq<HistoryItem>)
    ensures Newest(a + Newest(b)) == Newest(a + b)
  {
  }

  function Reversed(s: seq<HistoryItem>): seq<HistoryItem> {
    if s == [] then [] else Reversed(s[1..]) + [s[0]]
  }

  /** The history after saving `items` one after the other. */
  function SaveAll(h: seq<HistoryItem>, items: seq<HistoryItem>): seq<HistoryItem>
    decreases |items|
  {
    if items == [] then h else SaveAll(Pushed(items[0], h), items[1..])
  }

  /** Whatever was saved, the history holds the ten most recent saves, newest
      first, followed by as much of the earlier history as still fits. */
  lemma {:induction false} SaveAllKeepsNewest(h: seq<HistoryItem>, items: seq<HistoryItem>)
    requires |h| <= MaxEntries
    ensures SaveAll(h, items) == Newest(Reversed(items) + h)
    decreases |items|
  {
    if items == [] {
    } else {
      var x, rest := items[0], items[1..];
      SaveAllKeepsNewest(Pushed(x, h), rest);
      PushedIsNewest(x, h);
      NewestOfNewest(Reversed(rest), [x] + h);
      assert Reversed(items) == Reversed(rest) + [x];
      assert Reversed(rest) + ([x] + h) == Reversed(items) + h;
    }
  }

  /** `history.filter((item) => item.id !== id)`. */
  function WithoutId(h: seq<HistoryItem>, id: int): (r: seq<HistoryItem>)
    ensures |r| <= |h|
    ensures forall x :: x in r <==> x in h && x.id != id
  {
    if h == [] then []
    else (if h[0].id == id then [] else [h[0]]) + WithoutId(h[1..], id)
  }

  /** Number of entries carrying `id`. */
  function CountId(h: seq<HistoryItem>, id: int): nat {
    if h == [] then 0 else (if h[0].id == id then 1 else 0) + CountId(h[1..], id)
  }

  /** Filtering distributes over concatenation: the survivors keep their relative order. */
  lemma {:induction false} WithoutIdAppend(a: seq<HistoryItem>, b: seq<HistoryItem>, id: int)
    ensures WithoutId(a + b, id) == WithoutId(a, id) + WithoutId(b, id)
  {
    if a == [] {
      assert a + b == b;
    } else {
      assert (a + b)[0] == a[0];
      assert (a + b)[1..] == a[1..] + b;
      WithoutIdAppend(a[1..], b, id);
    }
  }

  /** Exactly the entries with that id go: the length drops by their number. */
  lemma {:induction false} WithoutIdRemovesCount(h: seq<HistoryItem>, id: int)
    ensures |WithoutId(h, id)| == |h| - CountId(h, id)
  {
    if h != [] {
      WithoutIdRemovesCount(h[1..], id);
    }
  }

  /** Deleting an id that no entry carries changes nothing. */
  lemma {:induction false} WithoutAbsentId(h: seq<HistoryItem>, id: int)
    requires forall i :: 0 <= i < |h| ==> h[i].id != id
    ensures WithoutId(h, id) == h
  {
    if h != [] {
      WithoutAbsentId(h[1..], id);
      assert h == [h[0]] + h[1..];
    }
  }

  /** Deleting the same id twice is deleting it once. */
  lemma WithoutIdIdempotent(h: seq<HistoryItem>, id: int)
    ensures WithoutId(WithoutId(h, id), id) == WithoutId(h, id)
  {
    var r := WithoutId(h, id);
    forall i | 0 <= i < |r| ensures r[i].id != id {
      assert r[i] in r;
    }
    WithoutAbsentId(r, id);
  }
}
