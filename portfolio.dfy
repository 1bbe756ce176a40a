/**
 * The portfolio filter: which cards a filter button shows, and the stagger
 * of the reveal animation, where the n-th shown card starts 150 ms after
 * the (n-1)-th and hidden cards do not count.
 */
module Portfolio {

  /** A portfolio card: its `data-category` attribute and its class list. */
  datatype Item = Item(category: string, classes: set<string>)

  /** What filtering does to one card: reveal it after `delay` milliseconds,
      or fade it out (and drop it from the layout 300 ms later). */
  datatype Effect = Reveal(delay: nat) | Conceal

  /** Milliseconds between the reveals of two consecutive shown cards. */
  const StaggerMs: nat := 150

  /** `filter === 'all' || itemCategory === filter || hasClass` */
  predicate ShouldShow(filter: string, item: Item) {
    filter == "all" || item.category == filter || filter in item.classes
  }

  /** How many of `items` the filter shows. */
  function CountShown(filter: string, items: seq<Item>): (n: nat)
    ensures n <= |items|
  {
    if items == [] then 0
    else CountShown(filter, items[..|items| - 1]) + (if ShouldShow(filter, items[|items| - 1]) then 1 else 0)
  }

  /** The effect on each card, in document order. */
  function Schedule(filter: string, items: seq<Item>): (effects: seq<Effect>)
    ensures |effects| == |items|
  {
    if items == [] then []
    else
      var k := |items| - 1;
      Schedule(filter, items[..k]) +
        [if ShouldShow(filter, items[k]) then Reveal(CountShown(filter, items[..k]) * StaggerMs) else Conceal]
  }

  /** `filterPortfolioItems(filter)`: one pass over the cards with the
      counter `visibleIndex` of the cards shown so far. */
  method FilterPortfolioItems(filter: string, items: seq<Item>) returns (effects: seq<Effect>)
    ensures effects == Schedule(filter, items)
  {
    var visibleIndex := 0;
    effects := [];
    var i := 0;
    while i < |items|
      invariant 0 <= i <= |items|
      invariant visibleIndex == CountShown(filter, items[..i])
      invariant effects == Schedule(filter, items[..i])
    {
      assert items[..i + 1][..i] == items[..i];
      var item := items[i];
      if ShouldShow(filter, item) {
        effects := effects + [Reveal(visibleIndex * StaggerMs)];
        visibleIndex := visibleIndex + 1;
      } else {
        effects := effects + [Conceal];
      }
      i := i + 1;
    }
    assert items[..|items|] == items;
  }

  /** Card `i` is revealed exactly when the filter shows it, and then after
      150 ms for every shown card before it. */
  lemma {:induction false} ScheduleAt(filter: string, items: seq<Item>, i: nat)
    requires i < |items|
    ensures Schedule(filter, items)[i].Reveal? <==> ShouldShow(filter, items[i])
    ensures Schedule(filter, items)[i].Reveal? ==>
      Schedule(filter, items)[i].delay == CountShown(filter, items[..i]) * StaggerMs
  {
    var k := |items| - 1;
    if i < k {
      ScheduleAt(filter, items[..k], i);
      assert items[..k][..i] == items[..i];
      assert Schedule(filter, items)[i] == Schedule(filter, items[..k])[i];
    }
  }

  /** The delays of the revealed cards, in order. */
  function RevealDelays(effects: seq<Effect>): seq<nat> {
    if effects == [] then []
    else
      var k := |effects| - 1;
      RevealDelays(effects[..k]) + (if effects[k].Reveal? then [effects[k].delay] else [])
  }

  /** 0, 150, 300, ... with `n` entries. */
  function Staircase(n: nat): (r: seq<nat>)
    ensures |r| == n
    ensures forall j :: 0 <= j < n ==> r[j] == j * StaggerMs
  {
    seq(n, j => j * StaggerMs)
  }

  /** The shown cards start at 0, 150, 300, ... in document order, one step
      per shown card: a hidden card does not advance the counter. */
  lemma {:induction false} RevealDelaysAreStaircase(filter: string, items: seq<Item>)
    ensures RevealDelays(Schedule(filter, items)) == Staircase(CountShown(filter, items))
  {
    if items != [] {
      var k := |items| - 1;
      RevealDelaysAreStaircase(filter, items[..k]);
      var s := Schedule(filter, items);
      assert s[..k] == Schedule(filter, items[..k]);
      var n := CountShown(filter, items[..k]);
      if ShouldShow(filter, items[k]) {
        assert Staircase(n + 1) == Staircase(n) + [n * StaggerMs];
      }
    }
  }

  /** The filter "all" shows every card, the i-th after i * 150 ms. */
  lemma {:induction false} AllShowsEverything(items: seq<Item>, i: nat)
    requires i < |items|
    ensures Schedule("all", items)[i] == Reveal(i * StaggerMs)
  {
    ScheduleAt("all", items, i);
    CountAll(items[..i]);
  }

  lemma {:induction false} CountAll(items: seq<Item>)
    ensures CountShown("all", items) == |items|
  {
    if items != [] {
      CountAll(items[..|items| - 1]);
    }
  }
}
