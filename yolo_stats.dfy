/**
 * `calculateAnnotationStats` of `src/utils/yolo.js`: how many boxes each known category has
 * and what share of all boxes that is, the average box size, and how many boxes are small,
 * medium or large by their longer side.
 */
module YoloStats {
  import opened Annotations

  datatype CategoryStat = CategoryStat(count: nat, percentage: real)

  datatype SizeClass = Small | Medium | Large

  datatype Sizes = Sizes(small: nat, medium: nat, large: nat)

  datatype Stats = Stats(
    total: nat,
    byCategory: map<int, CategoryStat>,
    avgWidth: real,
    avgHeight: real,
    sizes: Sizes)

  // ---------------------------------------------------------------- specification

  /** The longer side decides: below 0.1 is small, below 0.5 medium, anything else large. */
  function Classify(a: Annotation): SizeClass {
    var size := if a.width < a.height then a.height else a.width;
    if size < 0.1 then Small else if size < 0.5 then Medium else Large
  }

  /** The number of boxes of category `id`. */
  function CountOf(anns: seq<Annotation>, id: int): nat {
    if |anns| == 0 then 0
    else CountOf(anns[..|anns| - 1], id) + (if anns[|anns| - 1].categoryId == id then 1 else 0)
  }

  /** The number of boxes whose category is one of `ids`. */
  function CountIn(anns: seq<Annotation>, ids: set<int>): nat {
    if |anns| == 0 then 0
    else CountIn(anns[..|anns| - 1], ids) + (if anns[|anns| - 1].categoryId in ids then 1 else 0)
  }

  /** The number of boxes of one size class. */
  function CountSize(anns: seq<Annotation>, c: SizeClass): nat {
    if |anns| == 0 then 0
    else CountSize(anns[..|anns| - 1], c) + (if Classify(anns[|anns| - 1]) == c then 1 else 0)
  }

  function SumWidth(anns: seq<Annotation>): real {
    if |anns| == 0 then 0.0 else SumWidth(anns[..|anns| - 1]) + anns[|anns| - 1].width
  }

  function SumHeight(anns: seq<Annotation>): real {
    if |anns| == 0 then 0.0 else SumHeight(anns[..|anns| - 1]) + anns[|anns| - 1].height
  }

  /** The ids of the categories: the keys the per-category table starts with. */
  function Ids(categories: seq<Category>): set<int> {
    set c | c in categories :: c.id
  }

  /** What `calculateAnnotationStats(annotations, categories)` returns. */
  function StatsSpec(anns: seq<Annotation>, categories: seq<Category>): Stats {
    if |anns| == 0 then
      Stats(0, map id | id in Ids(categories) :: CategoryStat(0, 0.0), 0.0, 0.0, Sizes(0, 0, 0))
    else
      var n := |anns| as real;
      Stats(|anns|,
            map id | id in Ids(categories) :: CategoryStat(CountOf(anns, id), CountOf(anns, id) as real / n * 100.0),
            SumWidth(anns) / n, SumHeight(anns) / n,
            Sizes(CountSize(anns, Small), CountSize(anns, Medium), CountSize(anns, Large)))
  }

  // ---------------------------------------------------------------- the computation

  /** The per-category table before counting: every category id with a zero count and share. */
  method ZeroTable(categories: seq<Category>) returns (byCategory: map<int, CategoryStat>)
    ensures byCategory == map id | id in Ids(categories) :: CategoryStat(0, 0.0)
  {
    byCategory := map[];
    var k := 0;
    while k < |categories|
      invariant k <= |categories|
      invariant byCategory == map id | id in Ids(categories[..k]) :: CategoryStat(0, 0.0)
    {
      assert Ids(categories[..k + 1]) == Ids(categories[..k]) + {categories[k].id} by {
        assert categories[..k + 1] == categories[..k] + [categories[k]];
      }
      byCategory := byCategory[categories[k].id := CategoryStat(0, 0.0)];
      k := k + 1;
    }
    assert categories[..k] == categories;
  }

  /** `calculateAnnotationStats`. */
  method CalculateStats(anns: seq<Annotation>, categories: seq<Category>) returns (stats: Stats)
    ensures stats == StatsSpec(anns, categories)
  {
    var byCategory := ZeroTable(categories);
    if |anns| == 0 {
      return Stats(0, byCategory, 0.0, 0.0, Sizes(0, 0, 0));
    }
    var totalWidth, totalHeight := 0.0, 0.0;
    var small, medium, large := 0, 0, 0;
    var i := 0;
    while i < |anns|
      invariant i <= |anns|
      invariant byCategory.Keys == Ids(categories)
      invariant forall id :: id in byCategory ==> byCategory[id] == CategoryStat(CountOf(anns[..i], id), 0.0)
      invariant totalWidth == SumWidth(anns[..i]) && totalHeight == SumHeight(anns[..i])
      invariant small == CountSize(anns[..i], Small)
      invariant medium == CountSize(anns[..i], Medium)
      invariant large == CountSize(anns[..i], Large)
    {
      var a := anns[i];
      assert anns[..i + 1][..i] == anns[..i];
      if a.categoryId in byCategory {
        byCategory := byCategory[a.categoryId := CategoryStat(byCategory[a.categoryId].count + 1, 0.0)];
      }
      totalWidth := totalWidth + a.width;
      totalHeight := totalHeight + a.height;
      var size := if a.width < a.height then a.height else a.width;
      if size < 0.1 {
        small := small + 1;
      } else if size < 0.5 {
        medium := medium + 1;
      } else {
        large := large + 1;
      }
      i := i + 1;
    }
    assert anns[..i] == anns;
    var n := |anns| as real;
    byCategory := map id | id in byCategory :: CategoryStat(byCategory[id].count, byCategory[id].count as real / n * 100.0);
    assert byCategory == StatsSpec(anns, categories).byCategory;
    stats := Stats(|anns|, byCategory, totalWidth / n, totalHeight / n, Sizes(small, medium, large));
  }

  // ---------------------------------------------------------------- properties

  /** Every box falls in exactly one size class, so the three counts add up to the total. */
  lemma {:induction false} SizesSumToTotal(anns: seq<Annotation>)
    ensures CountSize(anns, Small) + CountSize(anns, Medium) + CountSize(anns, Large) == |anns|
  {
    if |anns| > 0 {
      SizesSumToTotal(anns[..|anns| - 1]);
    }
  }

  /** No input: everything is zero, and no division happens. */
  lemma EmptyStats(categories: seq<Category>)
    ensures var s := StatsSpec([], categories);
      && s.total == 0 && s.avgWidth == 0.0 && s.avgHeight == 0.0 && s.sizes == Sizes(0, 0, 0)
      && s.byCategory.Keys == Ids(categories)
      && forall id :: id in s.byCategory ==> s.byCategory[id] == CategoryStat(0, 0.0)
  {
  }

  /** The per-category table has one entry per category id; a box of any other category is not counted anywhere. */
  lemma {:induction false} CountInSplit(anns: seq<Annotation>, ids: set<int>, id: int)
    requires id !in ids
    ensures CountIn(anns, ids + {id}) == CountIn(anns, ids) + CountOf(anns, id)
  {
    if |anns| > 0 {
      CountInSplit(anns[..|anns| - 1], ids, id);
    }
  }

  lemma {:induction false} CountInAtMostTotal(anns: seq<Annotation>, ids: set<int>)
    ensures CountIn(anns, ids) <= |anns|
  {
    if |anns| > 0 {
      CountInAtMostTotal(anns[..|anns| - 1], ids);
    }
  }

  /** The counts of distinct categories, added up. */
  function SumCounts(stats: Stats, ids: seq<int>): nat
    requires forall j :: 0 <= j < |ids| ==> ids[j] in stats.byCategory
  {
    if |ids| == 0 then 0 else SumCounts(stats, ids[..|ids| - 1]) + stats.byCategory[ids[|ids| - 1]].count
  }

  /**
   * Only boxes of known categories are counted, each once: the counts of any distinct category
   * ids add up to the number of boxes in those categories, which is at most the total.
   */
  lemma {:induction false} CountsAtMostTotal(anns: seq<Annotation>, categories: seq<Category>, ids: seq<int>)
    requires forall j :: 0 <= j < |ids| ==> ids[j] in Ids(categories)
    requires forall j, k :: 0 <= j < k < |ids| ==> ids[j] != ids[k]
    ensures forall j :: 0 <= j < |ids| ==> ids[j] in StatsSpec(anns, categories).byCategory
    ensures SumCounts(StatsSpec(anns, categories), ids) == CountIn(anns, set j | 0 <= j < |ids| :: ids[j])
    ensures SumCounts(StatsSpec(anns, categories), ids) <= StatsSpec(anns, categories).total
  {
    var s := StatsSpec(anns, categories);
    var covered := set j | 0 <= j < |ids| :: ids[j];
    if |ids| > 0 {
      var init := ids[..|ids| - 1];
      var last := ids[|ids| - 1];
      CountsAtMostTotal(anns, categories, init);
      var initSet := set j | 0 <= j < |init| :: init[j];
      assert covered == initSet + {last} by {
        forall x | x in covered ensures x in initSet + {last} {
          var j :| 0 <= j < |ids| && ids[j] == x;
          if j < |ids| - 1 { assert init[j] == x; }
        }
      }
      assert last !in initSet;
      CountInSplit(anns, initSet, last);
      assert s.byCategory[last].count == CountOf(anns, last);
    } else {
      assert covered == {};
      CountInNone(anns);
    }
    CountInAtMostTotal(anns, covered);
  }

  /** Each share is between 0 and 100 percent. */
  lemma PercentageBounds(anns: seq<Annotation>, categories: seq<Category>, id: int)
    requires id in Ids(categories)
    ensures var c := StatsSpec(anns, categories).byCategory[id];
      0.0 <= c.percentage <= 100.0 && c.count <= |anns|
  {
    CountInAtMostTotal(anns, {id});
    CountInSplit(anns, {}, id);
    CountInNone(anns);
    assert {} + {id} == {id};
    if |anns| > 0 {
      ShareBounds(CountOf(anns, id) as real, |anns| as real);
    }
  }

  lemma ShareBounds(count: real, total: real)
    requires 0.0 <= count <= total && 0.0 < total
    ensures 0.0 <= count / total * 100.0 <= 100.0
  {
    var q := count / total;
    assert q * total == count;
    assert q <= 1.0 by {
      if q > 1.0 {
        assert false;
      }
    }
  }

  lemma {:induction false} CountInNone(anns: seq<Annotation>)
    ensures CountIn(anns, {}) == 0
  {
    if |anns| > 0 {
      CountInNone(anns[..|anns| - 1]);
    }
  }

  /** For boxes of the editor's kind (sides in `(0, 1]`) the average sides are in `(0, 1]` too. */
  lemma AverageSizeBounds(anns: seq<Annotation>, categories: seq<Category>)
    requires |anns| > 0
    requires forall j :: 0 <= j < |anns| ==> 0.0 < anns[j].width <= 1.0 && 0.0 < anns[j].height <= 1.0
    ensures var s := StatsSpec(anns, categories);
      0.0 < s.avgWidth <= 1.0 && 0.0 < s.avgHeight <= 1.0
  {
    SumBounds(anns);
  }

  lemma {:induction false} SumBounds(anns: seq<Annotation>)
    requires forall j :: 0 <= j < |anns| ==> 0.0 < anns[j].width <= 1.0 && 0.0 < anns[j].height <= 1.0
    ensures |anns| > 0 ==> 0.0 < SumWidth(anns) && 0.0 < SumHeight(anns)
    ensures SumWidth(anns) <= |anns| as real && SumHeight(anns) <= |anns| as real
  {
    if |anns| > 0 {
      SumBounds(anns[..|anns| - 1]);
    }
  }
}
