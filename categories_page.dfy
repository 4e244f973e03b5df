/**
 * The category list, open to every signed-in user: the name filter, the
 * client-side page window and its page-reset rules, and the Add Category form.
 */
module CategoriesPage {
  import Text
  import Paging

  const DefaultItemsPerPage := 10
  const DefaultImage := "https://placehold.co/640x480/cccccc/333333?text=Category"

  datatype Category = Category(id: int, name: string, image: string)

  /** What the Add form hands to the save handler. */
  datatype CategoryData = CategoryData(name: string, image: string)

  predicate NameMatches(c: Category, searchName: string) {
    Text.ContainsIgnoringCase(c.name, searchName)
  }

  /**
   * `filteredCategories`: exactly the categories whose lower-cased name
   * contains the lower-cased search text, in list order; an empty search keeps all.
   */
  function FilterCategories(categories: seq<Category>, searchName: string): (r: seq<Category>)
    ensures forall i :: 0 <= i < |r| ==> r[i] in categories && NameMatches(r[i], searchName)
    ensures forall i :: 0 <= i < |categories| && NameMatches(categories[i], searchName) ==> categories[i] in r
    ensures Text.IsSubsequence(r, categories)
    ensures searchName == "" ==> r == categories
    ensures forall c :: multiset(r)[c] == if NameMatches(c, searchName) then multiset(categories)[c] else 0
  {
    Text.ContainsIgnoringCaseEmpty();
    Text.Filter(categories, c => NameMatches(c, searchName))
  }

  /** Narrowing the search never adds a category: a longer search text keeps a subset. */
  lemma {:induction false} LongerSearchKeepsFewer(categories: seq<Category>, searchName: string, more: string)
    ensures forall i :: 0 <= i < |FilterCategories(categories, searchName + more)| ==>
      FilterCategories(categories, searchName + more)[i] in FilterCategories(categories, searchName)
  {
    forall i | 0 <= i < |FilterCategories(categories, searchName + more)|
      ensures FilterCategories(categories, searchName + more)[i] in FilterCategories(categories, searchName)
    {
      var c := FilterCategories(categories, searchName + more)[i];
      var k :| 0 <= k < |categories| && categories[k] == c;
      Text.LowerAppend(searchName, more);
      ContainsPrefix(Text.Lower(c.name), Text.Lower(searchName), Text.Lower(more));
    }
  }

  /** A string containing `p + q` contains `p`. */
  lemma ContainsPrefix(s: string, p: string, q: string)
    requires Text.Contains(s, p + q)
    ensures Text.Contains(s, p)
  {
    Text.ContainsIff(s, p + q);
    var i :| Text.OccursAt(s, p + q, i);
    assert s[i..i + |p|] == (p + q)[..|p|] == p;
    assert Text.OccursAt(s, p, i);
    Text.ContainsIff(s, p);
  }

  /** The list part of the page: categories, page, page size and the name search. */
  class CategoriesView {
    var categories: seq<Category>
    var currentPage: int
    var itemsPerPage: int
    var searchName: string

    predicate Valid()
      reads this
    {
      itemsPerPage > 0
    }

    function Filtered(): seq<Category>
      reads this
    {
      FilterCategories(categories, searchName)
    }

    /** `currentCategories`: the slice of the filtered list for the current page; never more than a page. */
    function CurrentCategories(): (r: seq<Category>)
      reads this
      requires Valid()
      ensures |r| <= itemsPerPage
    {
      Paging.WindowAtMostPerPage(Filtered(), currentPage, itemsPerPage);
      Paging.PageWindow(Filtered(), currentPage, itemsPerPage)
    }

    function TotalPages(): nat
      reads this
      requires Valid()
    {
      Paging.TotalPages(|Filtered()|, itemsPerPage)
    }

    constructor ()
      ensures Valid()
      ensures categories == [] && currentPage == 1
      ensures itemsPerPage == DefaultItemsPerPage && searchName == ""
    {
      categories := [];
      currentPage := 1;
      itemsPerPage := DefaultItemsPerPage;
      searchName := "";
    }

    /** A successful `fetchCategories`. */
    method Loaded(data: seq<Category>)
      requires Valid()
      modifies this
      ensures Valid()
      ensures categories == data
      ensures currentPage == old(currentPage) && itemsPerPage == old(itemsPerPage) && searchName == old(searchName)
    {
      categories := data;
    }

    /** `paginate`: any page number is taken as it is. */
    method Paginate(pageNumber: int)
      requires Valid()
      modifies this
      ensures Valid()
      ensures currentPage == pageNumber
      ensures categories == old(categories) && itemsPerPage == old(itemsPerPage) && searchName == old(searchName)
    {
      currentPage := pageNumber;
    }

    /** A new page size starts again from page 1. */
    method HandleItemsPerPageChange(value: int)
      requires value > 0
      modifies this
      ensures Valid()
      ensures itemsPerPage == value && currentPage == 1
      ensures categories == old(categories) && searchName == old(searchName)
    {
      itemsPerPage := value;
      currentPage := 1;
    }

    /** Typing in the name search starts again from page 1. */
    method ChangeSearchName(value: string)
      requires Valid()
      modifies this
      ensures Valid()
      ensures searchName == value && currentPage == 1
      ensures categories == old(categories) && itemsPerPage == old(itemsPerPage)
    {
      searchName := value;
      currentPage := 1;
    }
  }

  /** The Add Category form. */
  class AddCategoryForm {
    var name: string
    var image: string

    constructor ()
      ensures name == "" && image == DefaultImage
    {
      name := "";
      image := DefaultImage;
    }

    /** `handleSubmit`: hand `{ name, image }` over, then clear the name and restore the placeholder image. */
    method Submit() returns (data: CategoryData)
      modifies this
      ensures data == CategoryData(old(name), old(image))
      ensures name == "" && image == DefaultImage
    {
      data := CategoryData(name, image);
      name := "";
      image := DefaultImage;
    }
  }
}
