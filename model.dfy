/**
 * The response classes of the client's data model, each built as `Cls(**fields)`.
 * Their own validation is not part of this model: each one keeps the keyword
 * arguments it was given.
 */
module Model {
  import opened Http

  datatype SimplePlaylistPaging = SimplePlaylistPaging(fields: map<string, Json>)

  datatype SimpleAlbumPaging = SimpleAlbumPaging(fields: map<string, Json>)

  datatype CategoryPaging = CategoryPaging(fields: map<string, Json>)

  datatype Category = Category(fields: map<string, Json>)

  datatype Recommendations = Recommendations(fields: map<string, Json>)
}
