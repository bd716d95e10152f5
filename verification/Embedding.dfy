/** Batched embedding: each response may come in any order and is put back by index. */
module Embedding {
  type Vector = seq<real>

  datatype Item = Item(index: nat, embedding: Vector)

  const BATCH_SIZE: nat := 100

  /** What the API owes for a batch: one embedding per text, tagged with its index, in any order. */
  ghost predicate IsResponse(data: seq<Item>, batch: seq<string>, embed: string -> Vector) {
    && |data| == |batch|
    && (forall k :: 0 <= k < |data| ==> data[k].index < |batch| && data[k].embedding == embed(batch[data[k].index]))
    && (forall j, k :: 0 <= j < k < |data| ==> data[j].index != data[k].index)
  }

  function Insert(x: Item, s: seq<Item>): seq<Item> {
    if s == [] || x.index < s[0].index then [x] + s else [s[0]] + Insert(x, s[1..])
  }

  /** `sorted(response.data, key=lambda x: x.index)`. */
  function SortByIndex(s: seq<Item>): seq<Item> {
    if s == [] then [] else Insert(s[|s| - 1], SortByIndex(s[..|s| - 1]))
  }

  predicate StrictlySorted(s: seq<Item>) {
    forall j, k :: 0 <= j < k < |s| ==> s[j].index < s[k].index
  }

  lemma {:induction false} InsertKeepsOrder(x: Item, s: seq<Item>)
    requires StrictlySorted(s) && forall k :: 0 <= k < |s| ==> s[k].index != x.index
    ensures StrictlySorted(Insert(x, s)) && |Insert(x, s)| == |s| + 1
    ensures forall y :: y in Insert(x, s) <==> y == x || y in s
  {
    if s == [] || x.index < s[0].index {
    } else {
      InsertKeepsOrder(x, s[1..]);
      var r := Insert(x, s[1..]);
      assert s == [s[0]] + s[1..];
      forall k | 0 <= k < |r| ensures s[0].index < r[k].index {
        assert r[k] in r;
      }
    }
  }

  lemma {:induction false} SortIsStrict(s: seq<Item>)
    requires forall j, k :: 0 <= j < k < |s| ==> s[j].index != s[k].index
    ensures StrictlySorted(SortByIndex(s)) && |SortByIndex(s)| == |s|
    ensures forall y :: y in SortByIndex(s) <==> y in s
  {
    if s == [] {
    } else {
      var most := s[..|s| - 1];
      SortIsStrict(most);
      var r := SortByIndex(most);
      forall k | 0 <= k < |r| ensures r[k].index != s[|s| - 1].index {
        assert r[k] in most;
      }
      InsertKeepsOrder(s[|s| - 1], r);
      assert s == most + [s[|s| - 1]];
    }
  }

  lemma {:induction false} AtLeast(s: seq<Item>, i: nat)
    requires StrictlySorted(s) && i < |s|
    ensures s[i].index >= i
  {
    if i == 0 {
    } else {
      AtLeast(s, i - 1);
    }
  }

  lemma {:induction false} AtMost(s: seq<Item>, i: nat)
    requires StrictlySorted(s) && (forall k :: 0 <= k < |s| ==> s[k].index < |s|) && i < |s|
    ensures s[i].index <= i
    decreases |s| - i
  {
    if i + 1 == |s| {
    } else {
      AtMost(s, i + 1);
    }
  }

  /** Strictly increasing indices below the length are the positions themselves. */
  lemma IndexIsPosition(s: seq<Item>, i: nat)
    requires StrictlySorted(s) && (forall k :: 0 <= k < |s| ==> s[k].index < |s|) && i < |s|
    ensures s[i].index == i
  {
    AtLeast(s, i);
    AtMost(s, i);
  }

  /** Sorting a response restores the order of the batch, whatever order it came in. */
  lemma SortedResponse(data: seq<Item>, batch: seq<string>, embed: string -> Vector)
    requires IsResponse(data, batch, embed)
    ensures |SortByIndex(data)| == |batch|
    ensures forall i :: 0 <= i < |batch| ==> SortByIndex(data)[i].embedding == embed(batch[i])
  {
    SortIsStrict(data);
    var r := SortByIndex(data);
    forall k | 0 <= k < |r| ensures r[k].index < |batch| && r[k].embedding == embed(batch[r[k].index]) {
      assert r[k] in data;
    }
    forall i | 0 <= i < |batch| ensures r[i].embedding == embed(batch[i]) {
      IndexIsPosition(r, i);
    }
  }

  /** `create` answers the n-th request of the provider. */
  method EmbedTexts(texts: seq<string>, batchSize: nat, create: (nat, seq<string>) -> seq<Item>, ghost embed: string -> Vector)
      returns (all: seq<Vector>)
    requires batchSize >= 1
    requires forall n, batch :: IsResponse(create(n, batch), batch, embed)
    ensures |all| == |texts| && forall i :: 0 <= i < |texts| ==> all[i] == embed(texts[i])
  {
    all := [];
    var i, n := 0, 0;
    while i < |texts|
      invariant 0 <= i && |all| == if i <= |texts| then i else |texts|
      invariant forall k :: 0 <= k < |all| ==> all[k] == embed(texts[k])
    {
      var batch := texts[i..if i + batchSize <= |texts| then i + batchSize else |texts|];
      var data := create(n, batch);
      SortedResponse(data, batch, embed);
      var sorted := SortByIndex(data);
      all := all + seq(|sorted|, k requires 0 <= k < |sorted| => sorted[k].embedding);
      i, n := i + batchSize, n + 1;
    }
  }
}
