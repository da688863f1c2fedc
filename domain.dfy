/** The records the components read, in the shape the code actually uses them
    (`category_tags` rather than the declared `topics`, `item.dataset.id` inside collections). */
module Domain {
  import opened Text

  datatype Option<T> = None | Some(value: T)

  /** A value reaching a `catch` clause: an `Error` instance with its message, or anything else. */
  datatype Thrown = Error(message: string) | NonError

  /** The outcome of an awaited gateway call: it resolves with a value or it throws. */
  datatype Reply<T> = Ok(value: T) | Threw(thrown: Thrown)

  /** `err instanceof Error ? err.message : fallback`. */
  function MessageOr(t: Thrown, fallback: string): (m: string)
    ensures t.Error? ==> m == t.message
    ensures t.NonError? ==> m == fallback
  {
    match t
    case Error(message) => message
    case NonError => fallback
  }

  /** The connected wallet's public key in base58, absent when no wallet is connected. */
  type Wallet = Option<string>

  /** The denormalised author projection attached to a dataset. */
  datatype Author = Author(username: Option<string>, wallet_address: string)

  /** A dataset row; `upload_date` is the upload instant as an integer timestamp. */
  datatype Dataset = Dataset(
    id: string,
    name: string,
    description: string,
    created_by: string,
    author: Option<Author>,
    upload_date: int,
    size: int,
    file_url: Option<string>,
    likes: int,
    visibility: string,
    license: string,
    collection_count: int,
    category_tags: seq<string>)

  /** One membership link of a collection, as the collection query returns it. */
  datatype CollectionItem = CollectionItem(dataset: Dataset)

  datatype Collection = Collection(
    id: string,
    name: string,
    description: Option<string>,
    created_by: string,
    is_public: bool,
    datasets: Option<seq<CollectionItem>>,
    shared_with: Option<seq<string>>)

  /** A file picked in the browser: its name and its size in bytes. */
  datatype FileInfo = FileInfo(name: string, size: nat)

  /** `collection.datasets?.some(item => item.dataset.id === datasetId)`, with an absent
      list counting as no member. */
  predicate HasMember(c: Collection, datasetId: string)
  {
    c.datasets.Some? && exists i :: 0 <= i < |c.datasets.value| && c.datasets.value[i].dataset.id == datasetId
  }

  /** The text search both search boxes use: the lowercased name or description includes the
      lowercased query. */
  predicate MatchesQuery(d: Dataset, query: string)
  {
    Contains(Lower(d.name), Lower(query)) || Contains(Lower(d.description), Lower(query))
  }
}
