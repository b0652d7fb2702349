/**
 * The conversation list of the dashboard's report view
 * (`renderTopConversations` in public/js/app.js): every top source is paired
 * with every top destination of a different address, each pair is given the
 * smaller of the two endpoints' packet and byte counts, and the five pairs
 * with the most bytes are kept.
 */
module Conversations {
  import opened Common
  import opened Dashboard

  /** One entry of `network.topSources` or `network.topDestinations`. */
  datatype Endpoint = Endpoint(ip: string, packets: int, bytes: int)

  /** One conversation as the report builds it. */
  datatype Conversation = Conversation(
    source: string, destination: string, packets: int, bytes: int, description: string)

  /** The conversation the source builds for a source endpoint and a destination endpoint. */
  function Pair(s: Endpoint, d: Endpoint): (c: Conversation)
    ensures c.source == s.ip && c.destination == d.ip
    ensures c.packets <= s.packets && c.packets <= d.packets && (c.packets == s.packets || c.packets == d.packets)
    ensures c.bytes <= s.bytes && c.bytes <= d.bytes && (c.bytes == s.bytes || c.bytes == d.bytes)
    ensures c.description == GetConversationDescription(s.ip, d.ip)
  {
    Conversation(s.ip, d.ip, Min(s.packets, d.packets), Min(s.bytes, d.bytes),
                 GetConversationDescription(s.ip, d.ip))
  }

  /** The conversations of one source with the given destinations, in destination order. */
  function Row(s: Endpoint, dests: seq<Endpoint>): seq<Conversation> {
    if |dests| == 0 then []
    else
      var d := dests[|dests| - 1];
      Row(s, dests[..|dests| - 1]) + (if s.ip != d.ip then [Pair(s, d)] else [])
  }

  /** The conversations of all sources, source by source. */
  function Pairs(sources: seq<Endpoint>, dests: seq<Endpoint>): seq<Conversation> {
    if |sources| == 0 then []
    else Pairs(sources[..|sources| - 1], dests) + Row(sources[|sources| - 1], dests)
  }

  /** The nested `forEach` that pushes one conversation per pair of different addresses. */
  method PairConversations(sources: seq<Endpoint>, dests: seq<Endpoint>) returns (convs: seq<Conversation>)
    ensures convs == Pairs(sources, dests)
  {
    convs := [];
    for i := 0 to |sources|
      invariant convs == Pairs(sources[..i], dests)
    {
      var source := sources[i];
      for j := 0 to |dests|
        invariant convs == Pairs(sources[..i], dests) + Row(source, dests[..j])
      {
        var dest := dests[j];
        assert dests[..j + 1][..j] == dests[..j];
        if source.ip != dest.ip {
          convs := convs + [Pair(source, dest)];
        }
      }
      assert dests[..|dests|] == dests;
      assert sources[..i + 1][..i] == sources[..i];
    }
    assert sources[..|sources|] == sources;
  }

  /** Every conversation of a row pairs the source with one of the destinations. */
  lemma {:induction false} RowSound(s: Endpoint, dests: seq<Endpoint>, c: Conversation)
    requires c in Row(s, dests)
    ensures exists j :: 0 <= j < |dests| && s.ip != dests[j].ip && c == Pair(s, dests[j])
  {
    var init := dests[..|dests| - 1];
    var d := dests[|dests| - 1];
    if c in Row(s, init) {
      RowSound(s, init, c);
      var j :| 0 <= j < |init| && s.ip != init[j].ip && c == Pair(s, init[j]);
      assert dests[j] == init[j];
    } else {
      assert s.ip != d.ip && c == Pair(s, d);
    }
  }

  /** Every destination of another address gets its conversation in the row. */
  lemma {:induction false} RowComplete(s: Endpoint, dests: seq<Endpoint>, j: int)
    requires 0 <= j < |dests| && s.ip != dests[j].ip
    ensures Pair(s, dests[j]) in Row(s, dests)
  {
    var init := dests[..|dests| - 1];
    if j < |dests| - 1 {
      assert init[j] == dests[j];
      RowComplete(s, init, j);
    }
  }

  /** Every listed conversation pairs some source with some destination of another address. */
  lemma {:induction false} PairsSound(sources: seq<Endpoint>, dests: seq<Endpoint>, c: Conversation)
    requires c in Pairs(sources, dests)
    ensures exists i, j :: 0 <= i < |sources| && 0 <= j < |dests| && sources[i].ip != dests[j].ip
                           && c == Pair(sources[i], dests[j])
  {
    var n := |sources|;
    var init := sources[..n - 1];
    if c in Pairs(init, dests) {
      PairsSound(init, dests, c);
      var i, j :| 0 <= i < |init| && 0 <= j < |dests| && init[i].ip != dests[j].ip && c == Pair(init[i], dests[j]);
      assert sources[i] == init[i];
    } else {
      RowSound(sources[n - 1], dests, c);
      var j :| 0 <= j < |dests| && sources[n - 1].ip != dests[j].ip && c == Pair(sources[n - 1], dests[j]);
    }
  }

  /** The listing of some sources is that of all but the last, then the last one's row. */
  lemma PairsLast(sources: seq<Endpoint>, dests: seq<Endpoint>)
    requires |sources| > 0
    ensures Pairs(sources, dests) == Pairs(sources[..|sources| - 1], dests) + Row(sources[|sources| - 1], dests)
  {
  }

  /** Every conversation of a source's row is listed. */
  lemma {:induction false} RowListed(sources: seq<Endpoint>, dests: seq<Endpoint>, i: int, c: Conversation)
    requires 0 <= i < |sources| && c in Row(sources[i], dests)
    ensures c in Pairs(sources, dests)
  {
    var init := sources[..|sources| - 1];
    if i < |sources| - 1 {
      assert init[i] == sources[i];
      RowListed(init, dests, i, c);
      EarlierListed(sources, dests, c);
    } else {
      LastRowListed(sources, dests, c);
    }
  }

  /** What the sources but the last list is listed by all of them. */
  lemma EarlierListed(sources: seq<Endpoint>, dests: seq<Endpoint>, c: Conversation)
    requires |sources| > 0 && c in Pairs(sources[..|sources| - 1], dests)
    ensures c in Pairs(sources, dests)
  {
    PairsLast(sources, dests);
    InConcat(Pairs(sources, dests), Pairs(sources[..|sources| - 1], dests), Row(sources[|sources| - 1], dests), c);
  }

  /** The conversations of the last source are listed. */
  lemma LastRowListed(sources: seq<Endpoint>, dests: seq<Endpoint>, c: Conversation)
    requires |sources| > 0 && c in Row(sources[|sources| - 1], dests)
    ensures c in Pairs(sources, dests)
  {
    PairsLast(sources, dests);
    InConcat(Pairs(sources, dests), Pairs(sources[..|sources| - 1], dests), Row(sources[|sources| - 1], dests), c);
  }

  lemma InConcat(p: seq<Conversation>, a: seq<Conversation>, b: seq<Conversation>, c: Conversation)
    requires p == a + b && (c in a || c in b)
    ensures c in p
  {
  }

  /** Every pair of a source and a destination of another address is listed. */
  lemma PairsComplete(sources: seq<Endpoint>, dests: seq<Endpoint>, i: int, j: int)
    requires 0 <= i < |sources| && 0 <= j < |dests| && sources[i].ip != dests[j].ip
    ensures Pair(sources[i], dests[j]) in Pairs(sources, dests)
  {
    RowComplete(sources[i], dests, j);
    RowListed(sources, dests, i, Pair(sources[i], dests[j]));
  }

  /** A conversation is listed exactly when it pairs some source with some destination of another address. */
  lemma PairsMembership(sources: seq<Endpoint>, dests: seq<Endpoint>, c: Conversation)
    ensures c in Pairs(sources, dests) <==>
      exists i, j :: 0 <= i < |sources| && 0 <= j < |dests| && sources[i].ip != dests[j].ip
                     && c == Pair(sources[i], dests[j])
  {
    if c in Pairs(sources, dests) {
      PairsSound(sources, dests, c);
    }
    if exists i, j :: 0 <= i < |sources| && 0 <= j < |dests| && sources[i].ip != dests[j].ip
                      && c == Pair(sources[i], dests[j]) {
      var i, j :| 0 <= i < |sources| && 0 <= j < |dests| && sources[i].ip != dests[j].ip
                  && c == Pair(sources[i], dests[j]);
      PairsComplete(sources, dests, i, j);
    }
  }

  /** No conversation joins an address with itself. */
  lemma NoSelfConversation(sources: seq<Endpoint>, dests: seq<Endpoint>, c: Conversation)
    requires c in Pairs(sources, dests)
    ensures c.source != c.destination
  {
    PairsSound(sources, dests, c);
  }

  lemma {:induction false} RowLength(s: Endpoint, dests: seq<Endpoint>)
    ensures |Row(s, dests)| <= |dests|
  {
    if |dests| > 0 {
      RowLength(s, dests[..|dests| - 1]);
    }
  }

  /** At most one conversation per pair of endpoints. */
  lemma {:induction false} PairsLength(sources: seq<Endpoint>, dests: seq<Endpoint>)
    ensures |Pairs(sources, dests)| <= |sources| * |dests|
  {
    if |sources| > 0 {
      PairsLength(sources[..|sources| - 1], dests);
      RowLength(sources[|sources| - 1], dests);
      assert (|sources| - 1) * |dests| + |dests| == |sources| * |dests|;
    }
  }

  // ---------------------------------------------------------------- ordering

  /** Ordered by non-increasing byte count, as `sort((a, b) => b.bytes - a.bytes)` leaves it. */
  predicate ByteDescending(s: seq<Conversation>) {
    forall i, j :: 0 <= i < j < |s| ==> s[i].bytes >= s[j].bytes
  }

  /** Places `c` before the first conversation with no more bytes than it has. */
  function Insert(c: Conversation, s: seq<Conversation>): (r: seq<Conversation>)
    ensures |r| == |s| + 1
  {
    if |s| == 0 || c.bytes >= s[0].bytes then [c] + s else [s[0]] + Insert(c, s[1..])
  }

  /** The array sort of the source as a stable insertion sort. */
  function SortByBytes(s: seq<Conversation>): (r: seq<Conversation>)
    ensures |r| == |s|
  {
    if |s| == 0 then [] else Insert(s[0], SortByBytes(s[1..]))
  }

  lemma {:induction false} InsertPermutes(c: Conversation, s: seq<Conversation>)
    ensures multiset(Insert(c, s)) == multiset(s) + multiset{c}
  {
    if |s| > 0 && c.bytes < s[0].bytes {
      InsertPermutes(c, s[1..]);
      assert s == [s[0]] + s[1..];
    }
  }

  lemma {:induction false} InsertOrdered(c: Conversation, s: seq<Conversation>)
    requires ByteDescending(s)
    ensures ByteDescending(Insert(c, s))
  {
    if |s| > 0 && c.bytes < s[0].bytes {
      InsertOrdered(c, s[1..]);
      InsertPermutes(c, s[1..]);
      var r := Insert(c, s[1..]);
      forall k | 0 <= k < |r| ensures s[0].bytes >= r[k].bytes {
        assert r[k] in multiset(r);
        assert r[k] == c || r[k] in multiset(s[1..]);
        if r[k] != c {
          var m :| 0 <= m < |s[1..]| && s[1..][m] == r[k];
          assert s[m + 1] == r[k];
        }
      }
    }
  }

  /** The sort returns a permutation of its input. */
  lemma {:induction false} SortPermutes(s: seq<Conversation>)
    ensures multiset(SortByBytes(s)) == multiset(s)
  {
    if |s| > 0 {
      SortPermutes(s[1..]);
      InsertPermutes(s[0], SortByBytes(s[1..]));
      assert s == [s[0]] + s[1..];
    }
  }

  /** The sort returns its input ordered by non-increasing bytes. */
  lemma {:induction false} SortOrders(s: seq<Conversation>)
    ensures ByteDescending(SortByBytes(s))
  {
    if |s| > 0 {
      SortOrders(s[1..]);
      InsertOrdered(s[0], SortByBytes(s[1..]));
    }
  }

  /** In an ordered list, whatever lies beyond the first `k` entries has no more bytes than any of them. */
  lemma PrefixHoldsLargest(sorted: seq<Conversation>, k: nat)
    requires ByteDescending(sorted)
    requires k <= |sorted|
    ensures forall c, t :: c in multiset(sorted) - multiset(sorted[..k]) && t in sorted[..k] ==> c.bytes <= t.bytes
  {
    var top := sorted[..k];
    assert sorted == top + sorted[k..];
    assert multiset(sorted) == multiset(top) + multiset(sorted[k..]);
    forall c, t | c in multiset(sorted) - multiset(top) && t in top ensures c.bytes <= t.bytes {
      assert c in multiset(sorted[k..]);
      var m :| 0 <= m < |sorted[k..]| && sorted[k..][m] == c;
      var n :| 0 <= n < |top| && top[n] == t;
      assert sorted[k + m] == c && sorted[n] == t;
    }
  }

  /** Cutting an ordered permutation of `all` to its first `k` entries keeps `k` of the largest. */
  lemma SortedPrefix(all: seq<Conversation>, sorted: seq<Conversation>, k: nat)
    requires multiset(sorted) == multiset(all) && ByteDescending(sorted) && k <= |all|
    ensures k <= |sorted| && |sorted[..k]| == k
    ensures ByteDescending(sorted[..k])
    ensures multiset(sorted[..k]) <= multiset(all)
    ensures forall c :: c in sorted[..k] ==> c in all
    ensures forall c, t :: c in multiset(all) - multiset(sorted[..k]) && t in sorted[..k] ==> c.bytes <= t.bytes
  {
    assert |sorted| == |all| by {
      assert |multiset(sorted)| == |multiset(all)|;
    }
    var top := sorted[..k];
    PrefixHoldsLargest(sorted, k);
    assert sorted == top + sorted[k..];
    assert multiset(top) <= multiset(sorted);
    forall c | c in top ensures c in all {
      assert c in multiset(sorted);
    }
  }

  /** Conversations drawn from the listing never join an address with itself. */
  lemma DrawnNoSelf(sources: seq<Endpoint>, dests: seq<Endpoint>, top: seq<Conversation>)
    requires forall c :: c in top ==> c in Pairs(sources, dests)
    ensures forall c :: c in top ==> c.source != c.destination
  {
    forall c | c in top ensures c.source != c.destination {
      NoSelfConversation(sources, dests, c);
    }
  }

  /** The report's conversation list: all pairs, sorted by bytes, cut to the first five. */
  method TopConversations(sources: seq<Endpoint>, dests: seq<Endpoint>) returns (top: seq<Conversation>)
    ensures |top| == Min(5, |Pairs(sources, dests)|)
    ensures ByteDescending(top)
    ensures multiset(top) <= multiset(Pairs(sources, dests))
    ensures forall c :: c in top ==> c.source != c.destination
    ensures forall c, t :: c in multiset(Pairs(sources, dests)) - multiset(top) && t in top ==> c.bytes <= t.bytes
  {
    var convs := PairConversations(sources, dests);
    var sorted := SortByBytes(convs);
    SortPermutes(convs);
    SortOrders(convs);
    var k := Min(5, |convs|);
    SortedPrefix(convs, sorted, k);
    top := sorted[..k];
    DrawnNoSelf(sources, dests, top);
  }
}
