/** The Schema.org JSON-LD objects the storefront embeds: Product for a
    listing page, Organization for the site, BreadcrumbList for a path. */
module StructuredData {
  import opened Wrappers
  import opened Text
  import PromptRepositorySupabase

  type Prompt = PromptRepositorySupabase.Prompt

  const SCHEMA_CONTEXT := "https://schema.org"
  const SITE_NAME := "Prompt Market"
  const DEFAULT_IMAGE_PATH := "/og-image.png"
  const DEFAULT_ORGANIZATION_DESCRIPTION :=
    "전문가가 만든 검증된 AI 프롬프트를 구매하고 판매하는 마켓플레이스"

  datatype Seller = Seller(schemaType: string, name: string)

  datatype Offer = Offer(
    schemaType: string,
    url: string,
    priceCurrency: string,
    price: int,
    availability: string,
    seller: Seller)

  datatype AggregateRating = AggregateRating(
    schemaType: string,
    ratingValue: real,
    reviewCount: int,
    bestRating: int,
    worstRating: int)

  datatype Brand = Brand(schemaType: string, name: string)

  datatype ProductSchema = ProductSchema(
    context: string,
    schemaType: string,
    name: string,
    description: string,
    image: string,
    brand: Brand,
    offers: Offer,
    aggregateRating: Option<AggregateRating>,
    category: string,
    keywords: string)

  datatype OrganizationSchema = OrganizationSchema(
    context: string,
    schemaType: string,
    name: string,
    url: string,
    logo: string,
    description: string,
    sameAs: seq<string>)

  /** One step of a path as the caller gives it. */
  datatype Crumb = Crumb(name: string, url: string)

  datatype ListItem = ListItem(schemaType: string, position: int, name: string, item: string)

  datatype BreadcrumbSchema = BreadcrumbSchema(context: string, schemaType: string, itemListElement: seq<ListItem>)

  /** The canonical page of a listing: `${baseUrl}/${locale}/prompt/${id}`. */
  function ProductUrl(baseUrl: string, locale: string, id: string): (r: string)
    ensures StartsWith(r, baseUrl + "/" + locale + "/prompt/")
    ensures r[|baseUrl + "/" + locale + "/prompt/"|..] == id
  {
    baseUrl + "/" + locale + "/prompt/" + id
  }

  /** For one site and locale, distinct listings have distinct pages. */
  lemma ProductUrlInjective(baseUrl: string, locale: string, a: string, b: string)
    requires ProductUrl(baseUrl, locale, a) == ProductUrl(baseUrl, locale, b)
    ensures a == b
  {
    var prefix := baseUrl + "/" + locale + "/prompt/";
    assert ProductUrl(baseUrl, locale, a) == prefix + a;
    assert ProductUrl(baseUrl, locale, b) == prefix + b;
    assert a == (prefix + a)[|prefix|..];
    assert b == (prefix + b)[|prefix|..];
  }

  /** The product image: an absolute thumbnail as it is, a relative one
      under the site, and the site's default image when there is none. */
  function ProductImage(thumbnail: Option<string>, baseUrl: string): (r: string)
    ensures Truthy(thumbnail) && StartsWith(thumbnail.value, "http") ==> r == thumbnail.value
    ensures Truthy(thumbnail) && !StartsWith(thumbnail.value, "http") ==> r == baseUrl + thumbnail.value
    ensures !Truthy(thumbnail) ==> r == baseUrl + DEFAULT_IMAGE_PATH
    ensures StartsWith(r, "http") || StartsWith(r, baseUrl)
  {
    if Truthy(thumbnail) then
      if StartsWith(thumbnail.value, "http") then thumbnail.value
      else baseUrl + thumbnail.value
    else baseUrl + DEFAULT_IMAGE_PATH
  }

  /** A rating is shown only when it is truthy: present and not zero. */
  function Rating(rating: Option<real>, reviews: Option<int>): (r: Option<AggregateRating>)
    ensures r.Some? <==> rating.Some? && rating.value != 0.0
    ensures r.Some? ==> r.value.ratingValue == rating.value
    ensures r.Some? ==> r.value.reviewCount == reviews.GetOr(0)
    ensures r.Some? ==> r.value.bestRating == 5 && r.value.worstRating == 1
  {
    if rating.Some? && rating.value != 0.0 then
      Some(AggregateRating("AggregateRating", rating.value,
                           if reviews.Some? && reviews.value != 0 then reviews.value else 0, 5, 1))
    else None
  }

  /** `generateProductSchema({ prompt, baseUrl, locale })`. */
  function GenerateProductSchema(prompt: Prompt, baseUrl: string, locale: string): (s: ProductSchema)
    ensures s.offers.url == ProductUrl(baseUrl, locale, prompt.id)
    ensures s.image == ProductImage(prompt.thumbnail, baseUrl)
    ensures s.offers.priceCurrency == "KRW" && s.offers.price == prompt.price
    ensures s.offers.seller.name == OrElse(prompt.author, SITE_NAME)
    ensures s.aggregateRating == Rating(prompt.rating, prompt.reviews)
    ensures s.keywords == Join(prompt.tags, ", ")
    ensures s.name == prompt.title && s.description == prompt.description
    ensures s.category == prompt.category
  {
    ProductSchema(
      SCHEMA_CONTEXT,
      "Product",
      prompt.title,
      prompt.description,
      ProductImage(prompt.thumbnail, baseUrl),
      Brand("Brand", SITE_NAME),
      Offer("Offer", ProductUrl(baseUrl, locale, prompt.id), "KRW", prompt.price,
            "https://schema.org/InStock", Seller("Organization", OrElse(prompt.author, SITE_NAME))),
      Rating(prompt.rating, prompt.reviews),
      prompt.category,
      Join(prompt.tags, ", "))
  }

  /** The seller is the author when there is one, the site otherwise. */
  lemma SellerName(prompt: Prompt, baseUrl: string, locale: string)
    ensures var seller := GenerateProductSchema(prompt, baseUrl, locale).offers.seller.name;
            (Truthy(prompt.author) ==> seller == prompt.author.value) &&
            (!Truthy(prompt.author) ==> seller == "Prompt Market")
  {
  }

  /** `generateOrganizationSchema(data)`: a missing or empty logo defaults to
      the site's image, a missing or empty description to the fixed text. */
  function GenerateOrganizationSchema(name: string, url: string, logo: Option<string>,
                                      description: Option<string>): (s: OrganizationSchema)
    ensures s.name == name && s.url == url && s.sameAs == []
    ensures Truthy(logo) ==> s.logo == logo.value
    ensures !Truthy(logo) ==> s.logo == url + DEFAULT_IMAGE_PATH
    ensures Truthy(description) ==> s.description == description.value
    ensures !Truthy(description) ==> s.description == DEFAULT_ORGANIZATION_DESCRIPTION
  {
    OrganizationSchema(SCHEMA_CONTEXT, "Organization", name, url,
                       OrElse(logo, url + DEFAULT_IMAGE_PATH),
                       OrElse(description, DEFAULT_ORGANIZATION_DESCRIPTION),
                       [])
  }

  /** The steps a breadcrumb list describes. */
  function Crumbs(items: seq<ListItem>): seq<Crumb> {
    seq(|items|, i requires 0 <= i < |items| => Crumb(items[i].name, items[i].item))
  }

  /** `generateBreadcrumbSchema({ items })`: one list item per step, in order,
      numbered from 1, carrying the step's name and url. */
  function GenerateBreadcrumbSchema(items: seq<Crumb>): (s: BreadcrumbSchema)
    ensures |s.itemListElement| == |items|
    ensures Crumbs(s.itemListElement) == items
    ensures forall i :: 0 <= i < |items| ==> s.itemListElement[i].position == i + 1
  {
    var elements := seq(|items|, i requires 0 <= i < |items| =>
                          ListItem("ListItem", i + 1, items[i].name, items[i].url));
    assert Crumbs(elements) == items;
    BreadcrumbSchema(SCHEMA_CONTEXT, "BreadcrumbList", elements)
  }

  /** The breadcrumb of a longer path extends that of its prefix. */
  lemma {:induction false} BreadcrumbExtends(items: seq<Crumb>, last: Crumb)
    ensures var before := GenerateBreadcrumbSchema(items).itemListElement;
            var after := GenerateBreadcrumbSchema(items + [last]).itemListElement;
            after == before + [ListItem("ListItem", |items| + 1, last.name, last.url)]
  {
    var before := GenerateBreadcrumbSchema(items).itemListElement;
    var after := GenerateBreadcrumbSchema(items + [last]).itemListElement;
    assert |after| == |before| + 1;
    forall i | 0 <= i < |items|
      ensures after[i] == before[i]
    {
      assert (items + [last])[i] == items[i];
    }
    assert (items + [last])[|items|] == last;
  }
}
