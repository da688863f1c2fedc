/** What a component does outside its own state: the calls it issues to the remote data gateway
    and the callbacks it invokes on its parent. Each component records both, in order, so that
    contracts can say which requests a handler sent and with what payload. */
module Effects {
  import opened Domain

  datatype CreateDatasetParams = CreateDatasetParams(
    name: string, description: string, visibility: string, category_tags: seq<string>, license: string)

  datatype DatasetUpdate = DatasetUpdate(
    name: string, description: string, category_tags: seq<string>, created_by: string)

  datatype ProfileUpdate = ProfileUpdate(
    wallet_address: string, username: Option<string>, email: Option<string>)

  datatype NewCollection = NewCollection(
    name: string, description: string, is_public: bool, created_by: string)

  datatype CollectionChange = NameChange(name: string) | DescriptionChange(description: string)

  /** One call of a gateway helper imported from the data layer. */
  datatype Call =
    | GetDatasets
    | GetLikedDatasets(wallet: string)
    | ToggleLike(datasetId: string, wallet: string)
    | LikeDataset(datasetId: string)
    | UploadDatasetFile(datasetId: string, file: FileInfo)
    | CreateDataset(params: CreateDatasetParams)
    | UpdateDataset(datasetId: string, update: DatasetUpdate)
    | GetUserProfile(wallet: string)
    | UpdateUserProfile(profile: ProfileUpdate)
    | GetCollectionById(collectionId: string)
    | GetUserCollections(wallet: string)
    | AddToCollection(collectionId: string, datasetId: string)
    | RemoveFromCollection(collectionId: string, datasetId: string)
    | UpdateCollection(collectionId: string, change: CollectionChange)
    | CreateCollection(collection: NewCollection)
    | ShareCollection(collectionId: string, wallet: string)
    | DeleteCollection(collectionId: string)

  /** One invocation of a callback prop, a browser alert or a page reload. */
  datatype Event =
    | Updated
    | Closed
    | Succeeded
    | OpenChanged(open: bool)
    | Selected(value: string)
    | TopicAdded(topic: string)
    | TopicRemoved(topic: string)
    | Alerted(message: string)
    | SaveRequested(value: string)
    | PageReloaded
}
