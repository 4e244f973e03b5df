/**
 * The admin product list: the title filter, the client-side page window and
 * its page-reset rules, and the comma-separated image field of the Add and
 * Edit forms.
 */
module ProductsPage {
  import opened Wrappers
  import Text
  import Numbers
  import Paging

  const DefaultItemsPerPage := 10
  const ImageSeparator := ", "

  /** A product as the list and the forms use it; the price is left out. */
  datatype Product = Product(id: int, title: string, images: seq<string>)

  /** What the Add and Edit forms hand to the save handler; `categoryId` is `parseInt` of the selection. */
  datatype ProductPayload = ProductPayload(
    title: string,
    description: string,
    categoryId: Option<int>,
    images: seq<string>)

  predicate TitleMatches(p: Product, searchTitle: string) {
    Text.ContainsIgnoringCase(p.title, searchTitle)
  }

  /**
   * `filteredProducts`: exactly the products whose lower-cased title contains
   * the lower-cased search text, in list order; an empty search keeps them all.
   */
  function FilterProducts(products: seq<Product>, searchTitle: string): (r: seq<Product>)
    ensures forall i :: 0 <= i < |r| ==> r[i] in products && TitleMatches(r[i], searchTitle)
    ensures forall i :: 0 <= i < |products| && TitleMatches(products[i], searchTitle) ==> products[i] in r
    ensures Text.IsSubsequence(r, products)
    ensures searchTitle == "" ==> r == products
    ensures forall p :: multiset(r)[p] == if TitleMatches(p, searchTitle) then multiset(products)[p] else 0
  {
    Text.ContainsIgnoringCaseEmpty();
    Text.Filter(products, p => TitleMatches(p, searchTitle))
  }

  /** The image field parsed: split on ",", every piece trimmed, empty pieces dropped. */
  function ParseImages(text: string): (r: seq<string>)
    ensures |r| <= |Text.Split(text, ',')|
    ensures forall i :: 0 <= i < |r| ==> r[i] != ""
  {
    Text.Filter(Text.MapTrim(Text.Split(text, ',')), (img: string) => img != "")
  }

  /** A well-formed image list: every URL non-empty, without surrounding white space, without a comma. */
  predicate WellFormedImages(images: seq<string>) {
    forall i :: 0 <= i < |images| ==> images[i] != "" && Text.IsTrimmed(images[i]) && ',' !in images[i]
  }

  /** What parsing yields is always well formed: no entry is empty, untrimmed or holds a comma. */
  lemma ParsedImagesWellFormed(text: string)
    ensures WellFormedImages(ParseImages(text))
  {
    var pieces := Text.Split(text, ',');
    var trimmed := Text.MapTrim(pieces);
    forall j | 0 <= j < |trimmed|
      ensures Text.IsTrimmed(trimmed[j]) && ',' !in trimmed[j]
    {
      assert pieces[j] in pieces;
    }
  }

  /** The Edit form's image field: `images.join(', ')`. */
  function ImagesText(images: seq<string>): string {
    Text.Join(images, ImageSeparator)
  }

  /**
   * Editing a product and saving it untouched keeps its image list, provided
   * every URL is non-empty, has no surrounding white space and no comma.
   */
  lemma ImagesRoundTrip(images: seq<string>)
    requires WellFormedImages(images)
    ensures ParseImages(ImagesText(images)) == images
  {
    if images == [] {
      assert Text.Split("", ',') == [""];
      assert Text.MapTrim([""]) == [""];
    } else {
      Text.TrimmedPiecesOfJoin("", images);
      assert "" + ImagesText(images) == ImagesText(images);
    }
  }

  /** Parsing is idempotent through the Edit form: a parsed list survives being shown and saved again. */
  lemma ParseImagesIdempotent(text: string)
    ensures ParseImages(ImagesText(ParseImages(text))) == ParseImages(text)
  {
    ParsedImagesWellFormed(text);
    ImagesRoundTrip(ParseImages(text));
  }

  /** An empty image field gives no images. */
  lemma EmptyFieldNoImages()
    ensures ParseImages("") == []
  {
    assert Text.Split("", ',') == [""];
    assert Text.MapTrim([""]) == [""];
  }

  /** The list part of the page: the fetched products, the page, the page size and the title search. */
  class ProductsView {
    var products: seq<Product>
    var currentPage: int
    var itemsPerPage: int
    var searchTitle: string

    predicate Valid()
      reads this
    {
      itemsPerPage > 0
    }

    function Filtered(): seq<Product>
      reads this
    {
      FilterProducts(products, searchTitle)
    }

    /** `currentProducts`: the slice of the filtered list for the current page; never more than a page. */
    function CurrentProducts(): (r: seq<Product>)
      reads this
      requires Valid()
      ensures |r| <= itemsPerPage
    {
      Paging.WindowAtMostPerPage(Filtered(), currentPage, itemsPerPage);
      Paging.PageWindow(Filtered(), currentPage, itemsPerPage)
    }

    function TotalPages(): nat
      reads this
      requires Valid()
    {
      Paging.TotalPages(|Filtered()|, itemsPerPage)
    }

    constructor ()
      ensures Valid()
      ensures products == [] && currentPage == 1
      ensures itemsPerPage == DefaultItemsPerPage && searchTitle == ""
    {
      products := [];
      currentPage := 1;
      itemsPerPage := DefaultItemsPerPage;
      searchTitle := "";
    }

    /** A successful `fetchProducts`. */
    method Loaded(data: seq<Product>)
      requires Valid()
      modifies this
      ensures Valid()
      ensures products == data
      ensures currentPage == old(currentPage) && itemsPerPage == old(itemsPerPage) && searchTitle == old(searchTitle)
    {
      products := data;
    }

    /** `paginate`: any page number is taken as it is. */
    method Paginate(pageNumber: int)
      requires Valid()
      modifies this
      ensures Valid()
      ensures currentPage == pageNumber
      ensures products == old(products) && itemsPerPage == old(itemsPerPage) && searchTitle == old(searchTitle)
    {
      currentPage := pageNumber;
    }

    /** A new page size starts again from page 1. */
    method HandleItemsPerPageChange(value: int)
      requires value > 0
      modifies this
      ensures Valid()
      ensures itemsPerPage == value && currentPage == 1
      ensures products == old(products) && searchTitle == old(searchTitle)
    {
      itemsPerPage := value;
      currentPage := 1;
    }

    /** Typing in the title search starts again from page 1. */
    method ChangeSearchTitle(value: string)
      requires Valid()
      modifies this
      ensures Valid()
      ensures searchTitle == value && currentPage == 1
      ensures products == old(products) && itemsPerPage == old(itemsPerPage)
    {
      searchTitle := value;
      currentPage := 1;
    }
  }

  /**
   * After any filter or page-size change the page shows the first matches:
   * page 1 is the first `itemsPerPage` filtered products.
   */
  lemma ResetPageShowsFirstMatches(products: seq<Product>, searchTitle: string, itemsPerPage: int)
    requires itemsPerPage > 0
    ensures var filtered := FilterProducts(products, searchTitle);
      Paging.PageWindow(filtered, 1, itemsPerPage) == filtered[..Paging.Min(itemsPerPage, |filtered|)]
  {
    Paging.WindowOfPage(FilterProducts(products, searchTitle), 1, itemsPerPage);
  }

  /** The object `handleSubmit` hands over for the form's fields. */
  function PayloadOf(title: string, description: string, categoryId: string, images: string): (r: ProductPayload)
    ensures r.title == title && r.description == description
    ensures r.categoryId == Numbers.ParseIntAutoRadix(categoryId)
    ensures WellFormedImages(r.images)
  {
    ParsedImagesWellFormed(images);
    ProductPayload(title, description, Numbers.ParseIntAutoRadix(categoryId), ParseImages(images))
  }

  /** The selection a cleared form starts from: the first category, or nothing. */
  function DefaultCategory(categories: seq<int>): string {
    if categories != [] then Numbers.IntToString(categories[0]) else ""
  }

  /** The Add Product form. `categories` holds the ids of the fetched categories. */
  class AddProductForm {
    var title: string
    var price: string
    var description: string
    var categoryId: string
    var images: string
    var categories: seq<int>

    constructor ()
      ensures title == "" && price == "" && description == "" && categoryId == "" && images == ""
      ensures categories == []
    {
      title := "";
      price := "";
      description := "";
      categoryId := "";
      images := "";
      categories := [];
    }

    /** The category list arrived: the first category becomes the selection. */
    method CategoriesLoaded(ids: seq<int>)
      modifies this
      ensures categories == ids
      ensures categoryId == if ids != [] then Numbers.IntToString(ids[0]) else old(categoryId)
      ensures title == old(title) && price == old(price) && description == old(description) && images == old(images)
    {
      categories := ids;
      if ids != [] {
        categoryId := Numbers.IntToString(ids[0]);
      }
    }

    /** `handleSubmit`: hand the parsed fields over, then clear the form back to the first category. */
    method Submit() returns (payload: ProductPayload)
      modifies this
      ensures payload == PayloadOf(old(title), old(description), old(categoryId), old(images))
      ensures WellFormedImages(payload.images)
      ensures title == "" && price == "" && description == "" && images == ""
      ensures categoryId == DefaultCategory(categories)
      ensures categories == old(categories)
    {
      payload := PayloadOf(title, description, categoryId, images);
      Clear();
    }

    /** The clearing half of `handleSubmit`. */
    method Clear()
      modifies this
      ensures title == "" && price == "" && description == "" && images == ""
      ensures categoryId == DefaultCategory(categories)
      ensures categories == old(categories)
    {
      title := "";
      price := "";
      description := "";
      categoryId := DefaultCategory(categories);
      images := "";
    }
  }

  /**
   * The selection the form falls back to reaches the payload as that
   * category's id (`parseInt` without a radix reads a rendered id back); with
   * no category there is no selection and the id is NaN.
   */
  lemma DefaultCategorySubmitted(categories: seq<int>, title: string, description: string, images: string)
    ensures var payload := PayloadOf(title, description, DefaultCategory(categories), images);
      payload.categoryId == if categories != [] then Some(categories[0]) else None
  {
    if categories != [] {
      Numbers.ParseIntAutoRadixToString(categories[0]);
    } else {
      Numbers.ParseIntWithoutDigits("");
    }
  }
}
