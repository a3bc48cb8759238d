/** The row conversions of the database-backed prompt repository: a
    `prompts` table row to a listing, and a (partial) listing to the
    columns an insert or update writes. Field names are the property and
    column names of the source. */
module PromptRepositorySupabase {
  import opened Wrappers

  /** A listing as the application sees it. `status` is kept as text so
      that an empty status, which the types exclude but callers can pass,
      can be expressed. */
  datatype Prompt = Prompt(
    id: string,
    title: string,
    description: string,
    price: int,
    category: string,
    tags: seq<string>,
    rating: Option<real>,
    reviews: Option<int>,
    sales: Option<int>,
    author: Option<string>,
    thumbnail: Option<string>,
    prompt_text: Option<string>,
    image_urls: Option<seq<string>>,
    createdAt: Option<string>,
    status: Option<string>,
    long_description: Option<string>,
    features: Option<seq<string>>,
    contents: Option<string>,
    how_to_use: Option<string>,
    author_bio: Option<string>)

  /** A row of the `prompts` table. Nullable columns are `Option`s; `tags`,
      `image_urls` and `features` are declared non-null but the mapper
      guards them against `null` too. */
  datatype PromptRow = PromptRow(
    id: string,
    created_at: string,
    title: string,
    description: string,
    price: int,
    category: string,
    tags: Option<seq<string>>,
    rating: Option<real>,
    reviews: Option<int>,
    sales: Option<int>,
    author: Option<string>,
    thumbnail: Option<string>,
    prompt_text: Option<string>,
    image_urls: Option<seq<string>>,
    status: string,
    long_description: Option<string>,
    features: Option<seq<string>>,
    contents: Option<string>,
    how_to_use: Option<string>,
    author_bio: Option<string>)

  /** `Partial<Prompt>`: `None` marks a property that is not given. */
  datatype PromptPatch = PromptPatch(
    id: Option<string>,
    title: Option<string>,
    description: Option<string>,
    price: Option<int>,
    category: Option<string>,
    tags: Option<seq<string>>,
    rating: Option<real>,
    reviews: Option<int>,
    sales: Option<int>,
    author: Option<string>,
    thumbnail: Option<string>,
    prompt_text: Option<string>,
    image_urls: Option<seq<string>>,
    createdAt: Option<string>,
    status: Option<string>,
    long_description: Option<string>,
    features: Option<seq<string>>,
    contents: Option<string>,
    how_to_use: Option<string>,
    author_bio: Option<string>)

  /** `Partial<PromptRow>`: the outer `None` marks a column that is not
      written; for a nullable column `Some(None)` writes SQL `NULL`. */
  datatype RowPatch = RowPatch(
    id: Option<string>,
    created_at: Option<string>,
    title: Option<string>,
    description: Option<string>,
    price: Option<int>,
    category: Option<string>,
    tags: Option<seq<string>>,
    rating: Option<Option<real>>,
    reviews: Option<Option<int>>,
    sales: Option<Option<int>>,
    author: Option<Option<string>>,
    thumbnail: Option<Option<string>>,
    prompt_text: Option<Option<string>>,
    image_urls: Option<seq<string>>,
    status: Option<string>,
    long_description: Option<Option<string>>,
    features: Option<seq<string>>,
    contents: Option<Option<string>>,
    how_to_use: Option<Option<string>>,
    author_bio: Option<Option<string>>)

  /** A listing passed where a `Partial<Prompt>` is expected. */
  function AsPatch(p: Prompt): PromptPatch {
    PromptPatch(Some(p.id), Some(p.title), Some(p.description), Some(p.price), Some(p.category),
                Some(p.tags), p.rating, p.reviews, p.sales, p.author, p.thumbnail, p.prompt_text,
                p.image_urls, p.createdAt, p.status, p.long_description, p.features, p.contents,
                p.how_to_use, p.author_bio)
  }

  /** `mapRowToPrompt(row)`. `x ?? undefined` keeps a null column absent and
      `x || []` turns a null array into the empty one. */
  function MapRowToPrompt(row: PromptRow): (p: Prompt)
    ensures p.id == row.id && p.title == row.title && p.description == row.description
    ensures p.price == row.price && p.category == row.category && p.status == Some(row.status)
    ensures p.createdAt == Some(row.created_at)
    ensures row.tags.None? ==> p.tags == []
    ensures row.tags.Some? ==> p.tags == row.tags.value
    ensures row.image_urls.None? ==> p.image_urls == Some([])
    ensures row.image_urls.Some? ==> p.image_urls == row.image_urls
    ensures row.features.None? ==> p.features == Some([])
    ensures row.features.Some? ==> p.features == row.features
    // each nullable column: null becomes an absent property, a value is copied
    ensures p.rating == row.rating && p.reviews == row.reviews && p.sales == row.sales
    ensures p.author == row.author && p.thumbnail == row.thumbnail
    ensures p.prompt_text == row.prompt_text && p.long_description == row.long_description
    ensures p.contents == row.contents && p.how_to_use == row.how_to_use
    ensures p.author_bio == row.author_bio
  {
    Prompt(
      row.id,
      row.title,
      row.description,
      row.price,
      row.category,
      row.tags.GetOr([]),
      row.rating,
      row.reviews,
      row.sales,
      row.author,
      row.thumbnail,
      row.prompt_text,
      Some(row.image_urls.GetOr([])),
      Some(row.created_at),
      Some(row.status),
      row.long_description,
      Some(row.features.GetOr([])),
      row.contents,
      row.how_to_use,
      row.author_bio)
  }

  /** `if (x !== undefined) row.c = x ?? null` for a nullable column: a given
      property is written as its value, never as `NULL`. */
  function Nullable<T>(x: Option<T>): (c: Option<Option<T>>)
    ensures c.Some? <==> x.Some?
    ensures c.Some? ==> c.value == x
  {
    if x.Some? then Some(x) else None
  }

  /** `prompt.status || "active"`. */
  function StatusColumn(status: string): (s: string)
    ensures |s| > 0
    ensures |status| == 0 ==> s == "active"
    ensures |status| > 0 ==> s == status
  {
    if |status| == 0 then "active" else status
  }

  /** `mapPromptToRow(prompt)`: a column is written exactly when its property
      is given; `id` and `created_at` are never written. */
  function MapPromptToRow(prompt: PromptPatch): (row: RowPatch)
    ensures row.id.None? && row.created_at.None?
    ensures row.title == prompt.title && row.description == prompt.description
    ensures row.price == prompt.price && row.category == prompt.category
    ensures row.tags == prompt.tags && row.image_urls == prompt.image_urls
    ensures row.features == prompt.features
    ensures row.status.Some? <==> prompt.status.Some?
    ensures prompt.status.Some? ==> row.status.value == StatusColumn(prompt.status.value)
    // each nullable column is written exactly when its property is given,
    // and then with the given value
    ensures row.rating == Nullable(prompt.rating) && row.reviews == Nullable(prompt.reviews)
    ensures row.sales == Nullable(prompt.sales) && row.author == Nullable(prompt.author)
    ensures row.thumbnail == Nullable(prompt.thumbnail) && row.prompt_text == Nullable(prompt.prompt_text)
    ensures row.long_description == Nullable(prompt.long_description)
    ensures row.contents == Nullable(prompt.contents) && row.how_to_use == Nullable(prompt.how_to_use)
    ensures row.author_bio == Nullable(prompt.author_bio)
    ensures row.rating != Some(None) && row.reviews != Some(None) && row.sales != Some(None)
    ensures row.author != Some(None) && row.thumbnail != Some(None) && row.prompt_text != Some(None)
    ensures row.long_description != Some(None) && row.contents != Some(None)
    ensures row.how_to_use != Some(None) && row.author_bio != Some(None)
  {
    RowPatch(
      None,
      None,
      prompt.title,
      prompt.description,
      prompt.price,
      prompt.category,
      prompt.tags,
      Nullable(prompt.rating),
      Nullable(prompt.reviews),
      Nullable(prompt.sales),
      Nullable(prompt.author),
      Nullable(prompt.thumbnail),
      Nullable(prompt.prompt_text),
      prompt.image_urls,
      if prompt.status.Some? then Some(StatusColumn(prompt.status.value)) else None,
      Nullable(prompt.long_description),
      prompt.features,
      Nullable(prompt.contents),
      Nullable(prompt.how_to_use),
      Nullable(prompt.author_bio))
  }

  /** Every column of a row except `id` and `created_at`, as written values. */
  function WritableColumns(row: PromptRow): RowPatch {
    RowPatch(
      None, None, Some(row.title), Some(row.description), Some(row.price), Some(row.category),
      row.tags, Some(row.rating), Some(row.reviews), Some(row.sales), Some(row.author),
      Some(row.thumbnail), Some(row.prompt_text), row.image_urls, Some(row.status),
      Some(row.long_description), row.features, Some(row.contents), Some(row.how_to_use),
      Some(row.author_bio))
  }

  /** A row none of whose columns is null, with a status of its declared type. */
  predicate Complete(row: PromptRow) {
    && row.tags.Some? && row.image_urls.Some? && row.features.Some?
    && row.rating.Some? && row.reviews.Some? && row.sales.Some? && row.author.Some?
    && row.thumbnail.Some? && row.prompt_text.Some? && row.long_description.Some?
    && row.contents.Some? && row.how_to_use.Some? && row.author_bio.Some?
    && (row.status == "active" || row.status == "inactive")
  }

  /** Reading a complete row and writing the listing back writes exactly the
      row's columns other than `id` and `created_at`. */
  lemma RowRoundTrip(row: PromptRow)
    requires Complete(row)
    ensures MapPromptToRow(AsPatch(MapRowToPrompt(row))) == WritableColumns(row)
  {
  }

  /** Without that precondition the round trip can fail: an empty status
      comes back as `"active"`. */
  lemma EmptyStatusDoesNotRoundTrip(row: PromptRow)
    requires row.status == ""
    ensures MapPromptToRow(AsPatch(MapRowToPrompt(row))).status == Some("active")
    ensures MapPromptToRow(AsPatch(MapRowToPrompt(row))) != WritableColumns(row)
  {
  }

  /** Null columns read as absent properties, and absent properties are not
      written back: a null column is left alone rather than rewritten. */
  lemma NullColumnsAreNotRewritten(row: PromptRow)
    ensures var out := MapPromptToRow(AsPatch(MapRowToPrompt(row)));
            (row.rating.None? <==> out.rating.None?) &&
            (row.reviews.None? <==> out.reviews.None?) &&
            (row.sales.None? <==> out.sales.None?) &&
            (row.author.None? <==> out.author.None?) &&
            (row.thumbnail.None? <==> out.thumbnail.None?) &&
            (row.prompt_text.None? <==> out.prompt_text.None?) &&
            (row.long_description.None? <==> out.long_description.None?) &&
            (row.contents.None? <==> out.contents.None?) &&
            (row.how_to_use.None? <==> out.how_to_use.None?) &&
            (row.author_bio.None? <==> out.author_bio.None?)
  {
  }

  /** A row read back after being written from a listing carries the
      listing's properties: for a listing with every property present and a
      non-empty status, writing and reading back (with the database's `id`
      and `created_at`) gives the same listing. */
  lemma PromptRoundTrip(p: Prompt, id: string, createdAt: string)
    requires p.rating.Some? && p.reviews.Some? && p.sales.Some? && p.author.Some?
    requires p.thumbnail.Some? && p.prompt_text.Some? && p.image_urls.Some? && p.status.Some?
    requires p.long_description.Some? && p.features.Some? && p.contents.Some?
    requires p.how_to_use.Some? && p.author_bio.Some?
    requires |p.status.value| > 0 && p.id == id && p.createdAt == Some(createdAt)
    ensures var w := MapPromptToRow(AsPatch(p));
            var row := PromptRow(id, createdAt, w.title.value, w.description.value, w.price.value,
                                 w.category.value, w.tags, w.rating.value, w.reviews.value,
                                 w.sales.value, w.author.value, w.thumbnail.value,
                                 w.prompt_text.value, w.image_urls, w.status.value,
                                 w.long_description.value, w.features, w.contents.value,
                                 w.how_to_use.value, w.author_bio.value);
            MapRowToPrompt(row) == p
  {
  }
}
