/**
 * The advice page: the fixed article list and the category filter chips.
 */
module Advice {
  import opened Wrappers
  import Sequences

  datatype Article = Article(
    id: nat,
    title: string,
    category: string,
    displayCat: string,
    readTime: string,
    locked: bool,
    image: string)

  /** The filter chips, in display order; the first shows every article. */
  const Categories := ["Все", "ПМС", "Питание", "Спорт", "Сон"]
  const AllCategory := "Все"

  /** Chip label to article category. */
  const CatMap := map["Все" := "All", "ПМС" := "PMS", "Питание" := "Nutrition", "Спорт" := "Fitness", "Сон" := "Sleep"]

  const Articles := [
    Article(1, "Почему так хочется шоколада?", "PMS", "ПМС", "3 мин", false, "https://picsum.photos/400/200?random=1"),
    Article(2, "Лучшие тренировки в овуляцию", "Fitness", "Спорт", "5 мин", false, "https://picsum.photos/400/200?random=2"),
    Article(3, "Как высыпаться в любой день цикла", "Sleep", "Сон", "7 мин", true, "https://picsum.photos/400/200?random=3"),
    Article(4, "Продукты, богатые железом", "Nutrition", "Питание", "4 мин", false, "https://picsum.photos/400/200?random=4"),
    Article(5, "Гормональное акне: что делать?", "PMS", "ПМС", "6 мин", true, "https://picsum.photos/400/200?random=5")
  ]

  /** `filter(a => a.category === cat)`: the articles of one category, in their order. */
  function OfCategory(arts: seq<Article>, cat: string): (r: seq<Article>)
    ensures forall a :: a in r <==> a in arts && a.category == cat
    ensures Sequences.IsSubsequence(r, arts)
    ensures |r| <= |arts|
  {
    if arts == [] then []
    else
      var rest := OfCategory(arts[1..], cat);
      assert arts == [arts[0]] + arts[1..];
      if arts[0].category == cat then [arts[0]] + rest else rest
  }

  /**
   * The filter keeps every article of the category as often as it occurs,
   * and no other: with the order kept (`OfCategory`), the result is fixed.
   */
  lemma {:induction false} OfCategoryCounts(arts: seq<Article>, cat: string)
    ensures forall a :: multiset(OfCategory(arts, cat))[a] == if a.category == cat then multiset(arts)[a] else 0
  {
    if arts != [] {
      OfCategoryCounts(arts[1..], cat);
      assert arts == [arts[0]] + arts[1..];
      assert multiset(arts) == multiset{arts[0]} + multiset(arts[1..]);
    }
  }

  /**
   * `filtered`: every article for the "all" chip; otherwise the articles whose
   * category is the chip's mapped category. An unmapped chip maps to
   * `undefined`, which no category equals.
   */
  function Filtered(activeCat: string): (r: seq<Article>)
    ensures activeCat == AllCategory ==> r == Articles
    ensures activeCat != AllCategory && activeCat !in CatMap ==> r == []
    ensures activeCat != AllCategory && activeCat in CatMap ==>
      Sequences.IsSubsequence(r, Articles) && forall a :: a in r <==> a in Articles && a.category == CatMap[activeCat]
  {
    if activeCat == AllCategory then Articles
    else if activeCat in CatMap then OfCategory(Articles, CatMap[activeCat])
    else []
  }

  /** The category chips' contents: the two PMS articles, and one article for each other category. */
  lemma PmsChip()
    ensures Filtered("ПМС") == [Articles[0], Articles[4]]
  {
    assert CatMap["ПМС"] == "PMS";
    assert OfCategory(Articles[4..], "PMS") == [Articles[4]];
    assert OfCategory(Articles[2..], "PMS") == [Articles[4]];
    assert OfCategory(Articles[1..], "PMS") == [Articles[4]];
  }

  lemma NutritionChip()
    ensures Filtered("Питание") == [Articles[3]]
  {
    assert CatMap["Питание"] == "Nutrition";
  }

  lemma FitnessChip()
    ensures Filtered("Спорт") == [Articles[1]]
  {
    assert CatMap["Спорт"] == "Fitness";
  }

  lemma SleepChip()
    ensures Filtered("Сон") == [Articles[2]]
  {
    assert CatMap["Сон"] == "Sleep";
  }

  /** Every article is listed under the chip showing its own label. */
  lemma ArticleUnderOwnChip(i: nat)
    requires i < |Articles|
    ensures Articles[i].displayCat in CatMap && CatMap[Articles[i].displayCat] == Articles[i].category
    ensures Articles[i] in Filtered(Articles[i].displayCat)
  {
    if i == 0 || i == 4 {
      PmsChip();
    } else if i == 1 {
      FitnessChip();
    } else if i == 2 {
      SleepChip();
    } else {
      NutritionChip();
    }
  }

  /**
   * The four category chips together list as many articles as the "all"
   * chip; with the lemma above, each article appears under exactly one of
   * them: they partition the list.
   */
  lemma ChipsPartitionArticles()
    ensures |Filtered("ПМС")| + |Filtered("Питание")| + |Filtered("Спорт")| + |Filtered("Сон")| == |Filtered(AllCategory)|
  {
    PmsChip();
    NutritionChip();
    FitnessChip();
    SleepChip();
  }
}
