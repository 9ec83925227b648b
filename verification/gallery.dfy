/**
 * The template gallery: a fixed table of six templates and the category
 * filter that decides which of them are shown.
 */
module Gallery {
  import Seqs

  datatype Tag = NoTag | Tag(text: string)

  datatype Template = Template(
    title: string,
    category: string,
    image: string,
    description: string,
    tag: Tag)

  /** The pseudo-category that shows every template. */
  const All: string := "All"

  /** The card descriptions, one per template. */
  const MonoPortfolioBlurb: string :=
    "A stark, black-and-white portfolio template for photographers and visual artists focused on typography."
  const VentureSaasBlurb: string :=
    "High-conversion landing page designed for B2B startups. Includes pricing tables and feature grids."
  const LuxeCommerceBlurb: string :=
    "Minimalist storefront for premium fashion brands. Focuses on large imagery and clean checkout flow."
  const StudioAgencyBlurb: string :=
    "Professional digital agency website with case study CMS and team directory integration."
  const EditorialProBlurb: string :=
    "A content-first theme for magazines and blogs. optimized for readability and ad placements."
  const HorizonEstateBlurb: string :=
    "Real estate listing platform with map integration and gallery sliders for property showcases."

  const Templates: seq<Template> := [
    Template("Mono Portfolio", "Creative", "bg-zinc-800", MonoPortfolioBlurb, Tag("Best Seller")),
    Template("Venture SaaS", "Business", "bg-zinc-900", VentureSaasBlurb, Tag("New")),
    Template("Luxe Commerce", "E-Commerce", "bg-neutral-900", LuxeCommerceBlurb, NoTag),
    Template("Studio Agency", "Corporate", "bg-stone-900", StudioAgencyBlurb, Tag("Popular")),
    Template("Editorial Pro", "Content", "bg-slate-900", EditorialProBlurb, NoTag),
    Template("Horizon Estate", "Business", "bg-gray-900", HorizonEstateBlurb, NoTag)
  ]

  /** The filter buttons, in display order. */
  const Categories: seq<string> := [All, "Creative", "Business", "E-Commerce", "Corporate", "Content"]

  /** `selectedCategory` with its default: an omitted prop means "All". */
  datatype Selection = Omitted | Selected(category: string)

  function SelectedCategory(sel: Selection): (c: string) {
    match sel
    case Omitted => All
    case Selected(c) => c
  }

  /** `filteredTemplates`: the whole table for "All", otherwise the templates of that category. */
  function Filtered(category: string): (r: seq<Template>)
    ensures |r| <= |Templates|
    ensures category != All ==> forall t :: t in r ==> t.category == category
  {
    if category == All then Templates
    else Seqs.Filter(HasCategory(category), Templates)
  }

  /** The filter's test `t => t.category === selectedCategory`. */
  function HasCategory(category: string): (keep: Template -> bool) {
    (t: Template) => t.category == category
  }

  /** The empty-state panel is shown when the filter leaves nothing. */
  predicate ShowsEmptyState(category: string): (empty: bool)
    ensures empty ==> category != All
  {
    |Filtered(category)| == 0
  }

  /** "All" shows the whole table, in table order. */
  lemma FilterAllIsTable()
    ensures Filtered(All) == Templates
    ensures |Filtered(All)| == 6
  {
  }

  /** An omitted selection behaves as "All". */
  lemma DefaultSelectionShowsAll()
    ensures Filtered(SelectedCategory(Omitted)) == Templates
  {
  }

  /** Any other category shows exactly the templates of that category. */
  lemma FilteredMembership(category: string, t: Template)
    requires category != All
    ensures t in Filtered(category) <==> t in Templates && t.category == category
  {
    Seqs.FilterMembership(HasCategory(category), Templates, t);
  }

  /** The result keeps the table's order and never repeats a template, so it has at most six entries. */
  lemma FilteredIsSubsequence(category: string)
    ensures Seqs.IsSubsequence(Filtered(category), Templates)
    ensures |Filtered(category)| <= 6
  {
    if category == All {
      Seqs.SubsequenceReflexive(Templates);
    } else {
      Seqs.FilterIsSubsequence(HasCategory(category), Templates);
    }
  }

  /** "Business" shows Venture SaaS and then Horizon Estate. */
  lemma BusinessShowsTwo()
    ensures Filtered("Business") == [Templates[1], Templates[5]]
    ensures Filtered("Business")[0].title == "Venture SaaS"
    ensures Filtered("Business")[1].title == "Horizon Estate"
  {
    var keep := HasCategory("Business");
    var t := Templates;
    assert t[5..][1..] == [];
    assert Seqs.Filter(keep, t[5..]) == [t[5]];
    assert t[4..][1..] == t[5..];
    assert Seqs.Filter(keep, t[4..]) == [t[5]];
    assert t[3..][1..] == t[4..];
    assert Seqs.Filter(keep, t[3..]) == [t[5]];
    assert t[2..][1..] == t[3..];
    assert Seqs.Filter(keep, t[2..]) == [t[5]];
    assert t[1..][1..] == t[2..];
    assert Seqs.Filter(keep, t[1..]) == [t[1], t[5]];
    assert t[0..] == t;
  }

  /** Titles are pairwise distinct, so they can serve as list keys. */
  lemma TitlesDistinct()
    ensures forall i, j :: 0 <= i < j < |Templates| ==> Templates[i].title != Templates[j].title
  {
  }

  /**
   * Every button of the filter bar shows at least one template, so the empty
   * state appears exactly for a category that is not one of the buttons.
   */
  lemma EmptyStateOnlyOffList(category: string)
    ensures ShowsEmptyState(category) <==> category !in Categories
  {
    if category in Categories {
      if category != All {
        var k := FirstOfCategory(category);
        FilteredMembership(category, Templates[k]);
      }
    } else {
      var r := Filtered(category);
      if |r| > 0 {
        FilteredMembership(category, r[0]);
      }
    }
  }

  /** A template of each filter category other than "All", by its table index. */
  function FirstOfCategory(category: string): (k: nat)
    requires category in Categories && category != All
    ensures k < |Templates| && Templates[k].category == category
  {
    if category == "Creative" then 0
    else if category == "Business" then 1
    else if category == "E-Commerce" then 2
    else if category == "Corporate" then 3
    else 4
  }
}
