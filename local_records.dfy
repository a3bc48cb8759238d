/** The records the browser-storage repositories keep, and the union of
    the values the application writes to browser storage. Field names are
    the JSON property names of the stored objects. */
module LocalRecords {
  import opened Wrappers

  /** `"active" | "inactive"`. */
  datatype Status = Active | Inactive

  /** A listing as the local prompt repository stores it. */
  datatype Prompt = Prompt(
    id: string,
    title: string,
    description: string,
    price: int,
    category: string,
    tags: seq<string>,
    rating: Option<real>,
    reviews: Option<int>,
    sales: Option<int>,
    author: Option<string>,
    thumbnail: Option<string>,
    prompt_text: Option<string>,
    image_urls: Option<seq<string>>,
    createdAt: Option<string>,
    status: Option<Status>)

  /** `Partial<Prompt>`: `None` marks a property the update object does not carry. */
  datatype PromptPatch = PromptPatch(
    id: Option<string>,
    title: Option<string>,
    description: Option<string>,
    price: Option<int>,
    category: Option<string>,
    tags: Option<seq<string>>,
    rating: Option<real>,
    reviews: Option<int>,
    sales: Option<int>,
    author: Option<string>,
    thumbnail: Option<string>,
    prompt_text: Option<string>,
    image_urls: Option<seq<string>>,
    createdAt: Option<string>,
    status: Option<Status>)

  /** The update object that carries no property at all. */
  const NoChanges := PromptPatch(None, None, None, None, None, None, None, None, None,
                                 None, None, None, None, None, None)

  /** One property of `{ ...base, ...patch }`: the patch's value when it has one. */
  function Override<T>(base: T, patch: Option<T>): (r: T)
    ensures patch.Some? ==> r == patch.value
    ensures patch.None? ==> r == base
  {
    if patch.Some? then patch.value else base
  }

  /** An optional property of `{ ...base, ...patch }`. */
  function OverrideOptional<T>(base: Option<T>, patch: Option<T>): (r: Option<T>)
    ensures patch.Some? ==> r == patch
    ensures patch.None? ==> r == base
  {
    if patch.Some? then patch else base
  }

  /** `r` is what a spread gives for one property: the patch's value when
      the patch carries one, the base value otherwise. */
  ghost predicate Takes<T>(r: T, base: T, patch: Option<T>) {
    (patch.Some? ==> r == patch.value) && (patch.None? ==> r == base)
  }

  /** The same for an optional property, which the patch carries or not. */
  ghost predicate TakesOptional<T>(r: Option<T>, base: Option<T>, patch: Option<T>) {
    (patch.Some? ==> r == patch) && (patch.None? ==> r == base)
  }

  /** `{ ...p, ...updates }`: every property the update carries replaces the
      listing's, every other property is kept. */
  function Merge(p: Prompt, u: PromptPatch): (r: Prompt)
    ensures Takes(r.id, p.id, u.id) && Takes(r.title, p.title, u.title)
    ensures Takes(r.description, p.description, u.description) && Takes(r.price, p.price, u.price)
    ensures Takes(r.category, p.category, u.category) && Takes(r.tags, p.tags, u.tags)
    ensures TakesOptional(r.rating, p.rating, u.rating) && TakesOptional(r.reviews, p.reviews, u.reviews)
    ensures TakesOptional(r.sales, p.sales, u.sales) && TakesOptional(r.author, p.author, u.author)
    ensures TakesOptional(r.thumbnail, p.thumbnail, u.thumbnail)
    ensures TakesOptional(r.prompt_text, p.prompt_text, u.prompt_text)
    ensures TakesOptional(r.image_urls, p.image_urls, u.image_urls)
    ensures TakesOptional(r.createdAt, p.createdAt, u.createdAt)
    ensures TakesOptional(r.status, p.status, u.status)
  {
    Prompt(
      Override(p.id, u.id),
      Override(p.title, u.title),
      Override(p.description, u.description),
      Override(p.price, u.price),
      Override(p.category, u.category),
      Override(p.tags, u.tags),
      OverrideOptional(p.rating, u.rating),
      OverrideOptional(p.reviews, u.reviews),
      OverrideOptional(p.sales, u.sales),
      OverrideOptional(p.author, u.author),
      OverrideOptional(p.thumbnail, u.thumbnail),
      OverrideOptional(p.prompt_text, u.prompt_text),
      OverrideOptional(p.image_urls, u.image_urls),
      OverrideOptional(p.createdAt, u.createdAt),
      OverrideOptional(p.status, u.status))
  }

  /** A listing seen as an update object that carries all of its properties. */
  function AsPatch(p: Prompt): PromptPatch {
    PromptPatch(Some(p.id), Some(p.title), Some(p.description), Some(p.price), Some(p.category),
                Some(p.tags), p.rating, p.reviews, p.sales, p.author, p.thumbnail,
                p.prompt_text, p.image_urls, p.createdAt, p.status)
  }

  /** An update that carries nothing leaves the listing as it is. */
  lemma MergeNoChanges(p: Prompt)
    ensures Merge(p, NoChanges) == p
  {
  }

  /** Applying the same update twice is applying it once. */
  lemma MergeIdempotent(p: Prompt, u: PromptPatch)
    ensures Merge(Merge(p, u), u) == Merge(p, u)
  {
  }

  /** An update that carries every property of `q` yields a listing that
      agrees with `q` on every property `q` has. */
  lemma MergeFullPatch(p: Prompt, q: Prompt)
    requires q.rating.Some? && q.reviews.Some? && q.sales.Some? && q.author.Some?
    requires q.thumbnail.Some? && q.prompt_text.Some? && q.image_urls.Some?
    requires q.createdAt.Some? && q.status.Some?
    ensures Merge(p, AsPatch(q)) == q
  {
  }

  /** The merged listing keeps the matched listing's id unless the update carries one. */
  lemma MergeKeepsId(p: Prompt, u: PromptPatch)
    ensures Merge(p, u).id == if u.id.Some? then u.id.value else p.id
  {
  }

  /** One line of a purchase. */
  datatype PurchaseItem = PurchaseItem(id: string, title: string, price: int)

  /** A purchase as the local purchase repository stores it. */
  datatype Purchase = Purchase(
    id: string,
    date: string,
    items: seq<PurchaseItem>,
    total: int,
    email: string,
    paymentMethod: string)

  /** A review as the local review repository stores it. */
  datatype Review = Review(id: string, author: string, rating: int, date: string, content: string)

  /** The sales figures kept for one listing. */
  datatype SalesEntry = SalesEntry(monthlyRevenue: int, weeklySales: int, lastSale: Option<string>)

  /** `SalesData`: sales figures by listing id. */
  type SalesData = map<string, SalesEntry>

  /** What a browser-storage entry of this application decodes to. */
  datatype Value =
    | PromptList(prompts: seq<Prompt>)
    | PurchaseList(purchases: seq<Purchase>)
    | ReviewList(reviews: seq<Review>)
    | SalesTable(sales: SalesData)
}
