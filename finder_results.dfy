/**
 * What the resource finder renders (assets/script.js, lines 61-75 and
 * 155-194): the key it looks a path up by, and the numbered cards built
 * from a path's resource ids.
 */
module FinderResults {
  import opened FinderModel

  /** Where a card's link opens: a new browsing context or the same one. */
  datatype Target = Blank | Self

  /** One rendered card: its 1-based number, the resource it shows and its link target. */
  datatype Card = Card(number: nat, resource: Resource, target: Target)

  /** The key of `paths`: the goal id, an underscore, the approach id. */
  function PathKey(goal: string, approach: string): string
  {
    goal + "_" + approach
  }

  predicate StartsWith(s: string, prefix: string)
  {
    |prefix| <= |s| && s[..|prefix|] == prefix
  }

  /** Links starting with "http" open in a new context, all others in the same one. */
  function TargetOf(link: string): Target
  {
    if StartsWith(link, "http") then Blank else Self
  }

  function MakeCard(number: nat, res: Resource): Card
  {
    Card(number, res, TargetOf(res.link))
  }

  /**
   * The cards rendered for a path, built in path order: the id at position
   * `i` gives card number `i + 1`, and ids missing from `resources` are skipped.
   */
  function Cards(ids: seq<string>, resources: map<string, Resource>): (cards: seq<Card>)
    ensures |cards| <= |ids|
    ensures forall j :: 0 <= j < |cards| ==> 1 <= cards[j].number <= |ids|
    ensures forall j, j' :: 0 <= j < j' < |cards| ==> cards[j].number < cards[j'].number
    decreases |ids|
  {
    if ids == [] then []
    else
      var n := |ids|;
      Cards(ids[..n - 1], resources) + (if ids[n - 1] in resources then [MakeCard(n, resources[ids[n - 1]])] else [])
  }

  /**
   * Every card shows the resource of the path position its number names,
   * with the link target that resource's link calls for.
   */
  lemma {:induction false} CardsShowTheirPosition(ids: seq<string>, resources: map<string, Resource>, j: nat)
    requires j < |Cards(ids, resources)|
    ensures var c := Cards(ids, resources)[j];
      ids[c.number - 1] in resources && c.resource == resources[ids[c.number - 1]]
      && (c.target == Blank <==> StartsWith(c.resource.link, "http"))
    decreases |ids|
  {
    var n := |ids|;
    var prefix := Cards(ids[..n - 1], resources);
    var last := if ids[n - 1] in resources then [MakeCard(n, resources[ids[n - 1]])] else [];
    assert Cards(ids, resources) == prefix + last;
    if j < |prefix| {
      CardsShowTheirPosition(ids[..n - 1], resources, j);
      var c := prefix[j];
      assert Cards(ids, resources)[j] == c;
      assert ids[..n - 1][c.number - 1] == ids[c.number - 1];
    } else {
      assert Cards(ids, resources)[j] == last[0];
    }
  }

  /** Every path position whose id is a known resource gets a card, numbered position + 1. */
  lemma {:induction false} CardsCoverKnownIds(ids: seq<string>, resources: map<string, Resource>, i: nat)
    requires i < |ids| && ids[i] in resources
    ensures MakeCard(i + 1, resources[ids[i]]) in Cards(ids, resources)
    decreases |ids|
  {
    var n := |ids|;
    if i < n - 1 {
      CardsCoverKnownIds(ids[..n - 1], resources, i);
    }
  }

  /** When every id of the path is known, the cards are numbered 1, 2, ..., with none skipped. */
  lemma {:induction false} CardsOfKnownIds(ids: seq<string>, resources: map<string, Resource>)
    requires forall id :: id in ids ==> id in resources
    ensures |Cards(ids, resources)| == |ids|
    ensures forall i :: 0 <= i < |ids| ==> Cards(ids, resources)[i] == MakeCard(i + 1, resources[ids[i]])
    decreases |ids|
  {
    if ids != [] {
      var n := |ids|;
      assert forall id :: id in ids[..n - 1] ==> id in ids;
      CardsOfKnownIds(ids[..n - 1], resources);
    }
  }

  /** A path whose ids are all unknown renders no card at all. */
  lemma {:induction false} CardsOfUnknownIds(ids: seq<string>, resources: map<string, Resource>)
    requires forall id :: id in ids ==> id !in resources
    ensures Cards(ids, resources) == []
    decreases |ids|
  {
    if ids != [] {
      var n := |ids|;
      assert forall id :: id in ids[..n - 1] ==> id in ids;
      CardsOfUnknownIds(ids[..n - 1], resources);
    }
  }

  /** Goal ids without an underscore make the path key determine the goal and approach. */
  lemma PathKeyDeterminesPair(g1: string, a1: string, g2: string, a2: string)
    requires '_' !in g1 && '_' !in g2
    requires PathKey(g1, a1) == PathKey(g2, a2)
    ensures g1 == g2 && a1 == a2
  {
    var k := PathKey(g1, a1);
    assert k[|g1|] == '_' && k[|g2|] == '_';
    assert forall i :: 0 <= i < |g1| ==> k[i] == g1[i] && k[i] != '_';
    assert forall i :: 0 <= i < |g2| ==> k[i] == g2[i] && k[i] != '_';
    assert g1 == k[..|g1|] == g2;
    assert a1 == k[|g1| + 1..] == a2;
  }

  /**
   * A counterexample, not a property of the finder: with an underscore in a
   * goal id, two different selections share one path key, so the hypothesis
   * of `PathKeyDeterminesPair` cannot be dropped.
   */
  lemma PathKeyCollides()
    ensures PathKey("a_b", "c") == PathKey("a", "b_c")
  {
  }
}
