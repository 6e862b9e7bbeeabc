/** The discoveries feed: a most-recent-first list of at most five items. */
module Discoveries {
  import Text
  import opened Detection

  /** `addToDiscoveries` keeps at most this many items. */
  const MaxDiscoveries: nat := 5

  /** One entry of the feed: the icon (the label up to its first space), the label,
      the scan depth at the time, and the confidence. */
  datatype DiscoveryItem = DiscoveryItem(icon: string, kind: string, depth: real, confidence: real)

  /** The item `addToDiscoveries` renders for a detection made at depth `depth`. */
  function ItemFor(d: Detection, depth: real): (it: DiscoveryItem)
    ensures it.kind == d.kind && it.depth == depth && it.confidence == d.confidence
    ensures it.icon <= d.kind && ' ' !in it.icon
    ensures |it.icon| < |d.kind| ==> d.kind[|it.icon|] == ' '
  {
    DiscoveryItem(Text.TextBefore(d.kind, ' '), d.kind, depth, d.confidence)
  }

  function Min(a: int, b: int): int { if a <= b then a else b }

  /** The feed after `item` is put in front and the tail trimmed to five: the new item first,
      then the leading items of the old feed in their old order. */
  function Recent(feed: seq<DiscoveryItem>, item: DiscoveryItem): (r: seq<DiscoveryItem>)
    ensures |r| == Min(|feed| + 1, MaxDiscoveries)
    ensures r[0] == item
    ensures r[1..] == feed[..|r| - 1]
  {
    ([item] + feed)[..Min(|feed| + 1, MaxDiscoveries)]
  }

  /** The feed after adding `items` one at a time, oldest first, to an empty list. */
  function Feed(items: seq<DiscoveryItem>): seq<DiscoveryItem>
  {
    if items == [] then [] else Recent(Feed(items[..|items| - 1]), items[|items| - 1])
  }

  function Reversed<T>(s: seq<T>): (r: seq<T>)
    ensures |r| == |s|
    ensures forall k :: 0 <= k < |s| ==> r[k] == s[|s| - 1 - k]
  {
    if s == [] then [] else [s[|s| - 1]] + Reversed(s[..|s| - 1])
  }

  /** However many items are added, the feed holds the five newest, newest first. */
  lemma {:induction false} FeedIsNewestFirst(items: seq<DiscoveryItem>)
    ensures Feed(items) == Reversed(items)[..Min(|items|, MaxDiscoveries)]
  {
    if items != [] {
      var prev := items[..|items| - 1];
      FeedIsNewestFirst(prev);
      var r := Feed(items);
      var want := Reversed(items)[..Min(|items|, MaxDiscoveries)];
      assert |r| == |want|;
      forall k | 0 <= k < |r| ensures r[k] == want[k] {
        if k > 0 {
          assert r[k] == r[1..][k - 1] == Feed(prev)[k - 1];
          assert Feed(prev)[k - 1] == Reversed(prev)[k - 1];
        }
      }
    }
  }
}
