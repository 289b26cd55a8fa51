/** `src/components/profile_page.rs`: the page showing one person's profile and
    the posts they wrote. */
module ProfilePage {
  import opened LemmyTypes
  import Util

  /** `ProfileInput`: the page's only message. */
  datatype ProfileInput = UpdatePerson(details: PersonDetails)

  /** What the page holds: the person details and the rows of its post list. */
  datatype ProfileState = ProfileState(info: PersonDetails, posts: seq<PostView>)

  /** The page after `UpdatePerson(details)`: the details replace the old ones
      and the post list becomes the person's posts, whatever was shown before. */
  function AfterUpdatePerson(s: ProfileState, details: PersonDetails): (r: ProfileState)
    ensures r.info == details
    ensures |r.posts| == |details.posts|
    ensures forall i :: 0 <= i < |r.posts| ==> r.posts[i] == details.posts[i]
  {
    ProfileState(details, details.posts)
  }

  /** Updating twice with the same person leaves the page as updating once. */
  lemma UpdatePersonIdempotent(s: ProfileState, details: PersonDetails)
    ensures AfterUpdatePerson(AfterUpdatePerson(s, details), details) == AfterUpdatePerson(s, details)
  {
  }

  /** No post shown before the update survives it unless the new person wrote it. */
  lemma UpdatePersonDropsOldPosts(s: ProfileState, details: PersonDetails, p: PostView)
    requires p in s.posts && p !in details.posts
    ensures p !in AfterUpdatePerson(s, details).posts
  {
  }

  class ProfilePage {
    var info: PersonDetails
    var posts: seq<PostView>

    function State(): ProfileState
      reads this
    {
      ProfileState(info, posts)
    }

    /** `init`: the page starts with the given details and an empty post list. */
    constructor (init: PersonDetails)
      ensures State() == ProfileState(init, [])
    {
      info := init;
      posts := [];
    }

    /** `update`: store the details, tell the avatar image what to show, then
        clear the post list and push the person's posts one by one. */
    method Update(input: ProfileInput) returns (avatarMsg: Util.WebImageMsg)
      modifies this
      ensures State() == AfterUpdatePerson(old(State()), input.details)
      ensures avatarMsg == Util.GetWebImageMsg(input.details.person.avatar)
      ensures avatarMsg.Unload? <==> input.details.person.avatar.None?
    {
      match input
      case UpdatePerson(person) =>
        info := person;
        avatarMsg := Util.GetWebImageMsg(person.person.avatar);
        posts := [];
        for i := 0 to |person.posts|
          invariant info == person
          invariant posts == person.posts[..i]
        {
          posts := posts + [person.posts[i]];
        }
        assert person.posts[..|person.posts|] == person.posts;
    }
  }
}
