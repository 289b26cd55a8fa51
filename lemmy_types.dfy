/** The parts of the Lemmy API client library's data that the client reads.
    The library's records are much larger; only the fields the modelled code
    touches are kept, the rest is represented by an identifier. */
module LemmyTypes {
  import opened Wrappers

  /** The text of a serialised absolute URL. A serialised URL always starts with
      its scheme followed by ':', so it is never empty. */
  type UrlText = s: string | |s| > 0 witness "a:"

  /** `DbUrl`: a URL stored by the server, known here through its serialisation. */
  datatype DbUrl = DbUrl(serialization: UrlText)

  /** `ListingType` of the API: which posts or communities a listing covers. */
  datatype ListingType = All | Local | Subscribed | Community

  /** `PostView`: one post as listed. */
  datatype PostView = PostView(id: int, name: string, creatorId: int, communityId: int)

  /** `CommunityView`: one community as listed. */
  datatype CommunityView = CommunityView(id: int, name: string)

  /** `GetCommunityResponse`. */
  datatype CommunityResponse = CommunityResponse(communityView: CommunityView)

  /** `GetPostResponse`. */
  datatype PostResponse = PostResponse(postView: PostView)

  /** `Person`, as seen through `person_view.person`. */
  datatype Person = Person(id: int, name: string, avatar: Option<DbUrl>, bio: Option<string>)

  /** `GetPersonDetailsResponse`: the person and the posts they wrote. */
  datatype PersonDetails = PersonDetails(person: Person, posts: seq<PostView>)
}
