/** `src/main.rs`: the top-level `App` component. It holds which screen is shown,
    a back stack of the result messages that produced the screens, and the paged
    post and community lists, and it changes them in one message handler. */
module AppComponent {
  import opened Wrappers
  import L = LemmyTypes
  import opened RustStr
  import ProfilePage

  /** `AppState`: which screen the window shows. */
  datatype AppState =
    | Loading | Posts | ChooseInstance | Communities | Community
    | Person | Post | Login | Message | Inbox

  /** `AppMsg`: the inputs of the component. Identifiers of communities, persons
      and posts are the API's integer newtypes. */
  datatype AppMsg =
    | ChooseInstance
    | ShowLogin
    | Login(username: string, password: string, totpToken: string)
    | LoggedIn
    | Logout
    | ShowMessage(text: string)
    | DoneChoosingInstance(instanceUrl: string)
    | StartFetchPosts(postsType: Option<L.ListingType>, removePrevious: bool)
    | DoneFetchPosts(posts: seq<L.PostView>)
    | DoneFetchCommunities(communities: seq<L.CommunityView>)
    | FetchCommunities(communitiesType: Option<L.ListingType>, removePrevious: bool)
    | OpenCommunity(communityId: int)
    | DoneFetchCommunity(community: L.CommunityResponse)
    | OpenPerson(personId: int)
    | DoneFetchPerson(person: L.PersonDetails)
    | OpenPost(postId: int)
    | DoneFetchPost(post: L.PostResponse)
    | OpenInbox
    | PopBackStack
    | ShowAbout

  /** The single blocking API call a background thread performs. Its answer comes
      back later as a `Done*` message, or as `ShowMessage` with the error. */
  datatype Request =
    | ListPosts(page: int, listing: Option<L.ListingType>)
    | ListCommunities(page: int, query: Option<string>, listing: Option<L.ListingType>)
    | GetPerson(personId: int, page: int)
    | GetCommunity(communityId: int)
    | GetPost(postId: int)
    | LoginRequest(username: string, password: string, totpToken: Option<string>)

  /** Messages the component emits to its child pages. */
  datatype ChildInput =
    | FetchInstances
    | ToProfilePage(input: ProfilePage.ProfileInput)
    | UpdateCommunity(view: L.CommunityView)
    | UpdatePost(response: L.PostResponse)
    | FetchInbox

  /** What handling one message sets in motion, in order: a message the
      component sends to itself (`sender.input`), a background request, or a
      message to a child page. */
  datatype Effect =
    | SendSelf(msg: AppMsg)
    | Spawn(request: Request)
    | Emit(input: ChildInput)

  /** The persisted "current account" settings record. */
  datatype Account = Account(instanceUrl: string, jwt: Option<string>, name: string, id: int)

  /** The fields of `App` that the handler reads or writes, apart from the back
      stack. The post and community lists are the rows of their list widgets, in
      display order. `searchText` is the community search box, which only the
      user edits. */
  datatype ViewModel = ViewModel(
    state: AppState,
    message: Option<string>,
    posts: seq<L.PostView>,
    communities: seq<L.CommunityView>,
    loggedIn: bool,
    communitiesType: Option<L.ListingType>,
    postsType: Option<L.ListingType>,
    communitiesPage: int,
    postsPage: int,
    searchText: string,
    account: Account)

  /** The whole component: the view fields and the back stack. */
  datatype Model = Model(view: ViewModel, backQueue: seq<AppMsg>)

  /** The result of handling one message: the next model and the effects, or a
      panic of the handler. */
  datatype Outcome = Next(model: Model, effects: seq<Effect>) | Panic

  /** The messages that are saved on the back stack before they are handled:
      the results of the background requests and the error screen. */
  predicate IsRecorded(msg: AppMsg)
  {
    msg.DoneFetchCommunities? || msg.DoneFetchCommunity? || msg.DoneFetchPerson?
    || msg.DoneFetchPost? || msg.DoneFetchPosts? || msg.ShowMessage?
  }

  /** What every reachable model satisfies: page counters start at 1 and only
      grow or reset to 1, and the back stack holds only recorded messages. */
  ghost predicate WellFormed(m: Model)
  {
    m.view.postsPage >= 1 && m.view.communitiesPage >= 1
    && forall i :: 0 <= i < |m.backQueue| ==> IsRecorded(m.backQueue[i])
  }

  /** The instance address as typed, given the `https://` scheme unless it
      already starts with "http". */
  function WithScheme(s: string): (r: string)
    ensures StartsWith(s, "http") ==> r == s
  {
    if StartsWith(s, "http") then s else "https://" + s
  }

  /** Any other text gets exactly the `https://` scheme in front; either way the
      address starts with "http" and ends with the typed text. */
  lemma WithSchemeShape(s: string)
    ensures !StartsWith(s, "http") ==> WithScheme(s) == "https://" + s
    ensures StartsWith(WithScheme(s), "http")
    ensures |s| <= |WithScheme(s)| && WithScheme(s)[|WithScheme(s)| - |s|..] == s
  {
    var r := WithScheme(s);
    if !StartsWith(s, "http") {
      assert r[..4] == "http";
      assert r[|r| - |s|..] == s;
    }
  }

  /** The page a fetch asks for: the first one when the list is to be replaced,
      the one after the current page otherwise. */
  function NextPage(current: int, removePrevious: bool): (page: int)
    ensures removePrevious ==> page == 1
    ensures !removePrevious ==> page == current + 1
  {
    if removePrevious then 1 else current + 1
  }

  /** The community search text as the request's query: none when empty. */
  function SearchQuery(text: string): (q: Option<string>)
    ensures q.None? <==> text == ""
    ensures q.Some? ==> q.value == text
  {
    if text == "" then None else Some(text)
  }

  /** `App::init`: the model built from the stored account, and the messages it
      sends itself. */
  function InitModel(account: Account): (r: (Model, seq<Effect>))
    ensures r.0.view.state == AppState.ChooseInstance <==> account.instanceUrl == ""
    ensures account.instanceUrl != "" ==> r.0.view.state == AppState.Loading
    ensures r.0.view.loggedIn <==> account.jwt.Some?
    ensures r.0.view.postsPage == 1 && r.0.view.communitiesPage == 1
    ensures r.0.backQueue == [] && r.0.view.posts == [] && r.0.view.communities == []
    ensures r.0.view.message == None && r.0.view.postsType == None && r.0.view.communitiesType == None
    ensures r.0.view.account == account
    ensures account.instanceUrl != "" ==> r.1 == [SendSelf(StartFetchPosts(None, true))]
    ensures account.instanceUrl == "" ==> r.1 == []
    ensures WellFormed(r.0)
  {
    var state := if account.instanceUrl == "" then AppState.ChooseInstance else AppState.Loading;
    var v := ViewModel(state, None, [], [], account.jwt.Some?, None, None, 1, 1, "", account);
    (Model(v, []), if account.instanceUrl != "" then [SendSelf(StartFetchPosts(None, true))] else [])
  }

  /** Handling of `DoneChoosingInstance(instanceUrl)`. */
  function OnDoneChoosingInstance(v: ViewModel, instanceUrl: string,
                                  parse: string -> Result<L.UrlText>): (ViewModel, seq<Effect>)
  {
    if Trim(instanceUrl) == [] then (v, [])
    else
      match parse(WithScheme(instanceUrl))
      case Ok(url) =>
        (v.(account := v.account.(instanceUrl := url[..|url| - 1], jwt := None),
            state := AppState.Loading, loggedIn := false),
         [SendSelf(StartFetchPosts(None, true))])
      case Err(err) => (v, [SendSelf(ShowMessage(err))])
  }

  /** Handling of `StartFetchPosts(postsType, removePrevious)`. */
  function OnStartFetchPosts(v: ViewModel, postsType: Option<L.ListingType>, removePrevious: bool)
    : (ViewModel, seq<Effect>)
  {
    var page := NextPage(v.postsPage, removePrevious);
    (v.(postsType := postsType, postsPage := page), [Spawn(ListPosts(page, postsType))])
  }

  /** Handling of `DoneFetchPosts(posts)`. */
  function OnDoneFetchPosts(v: ViewModel, posts: seq<L.PostView>): (ViewModel, seq<Effect>)
  {
    (v.(state := AppState.Posts, posts := (if v.postsPage == 1 then [] else v.posts) + posts), [])
  }

  /** Handling of `FetchCommunities(listing, removePrevious)`. */
  function OnFetchCommunities(v: ViewModel, listing: Option<L.ListingType>, removePrevious: bool)
    : (ViewModel, seq<Effect>)
  {
    var page := NextPage(v.communitiesPage, removePrevious);
    (v.(state := AppState.Communities, communitiesPage := page, communitiesType := listing),
     [Spawn(ListCommunities(page, SearchQuery(v.searchText), listing))])
  }

  /** Handling of `DoneFetchCommunities(communities)`. */
  function OnDoneFetchCommunities(v: ViewModel, communities: seq<L.CommunityView>): (ViewModel, seq<Effect>)
  {
    (v.(state := AppState.Communities,
        communities := (if v.communitiesPage == 1 then [] else v.communities) + communities), [])
  }

  /** Handling of `Login(username, password, totpToken)`. */
  function OnLogin(v: ViewModel, username: string, password: string, totpToken: string)
    : (ViewModel, seq<Effect>)
  {
    if v.account.instanceUrl == "" then (v, [])
    else
      var token := if totpToken == "" then None else Some(totpToken);
      (v.(state := AppState.Loading), [Spawn(LoginRequest(username, password, token))])
  }

  /** The messages whose arm has a handler of its own: choosing the instance,
      logging in, and fetching or showing the posts and the communities. */
  predicate HasOwnHandler(msg: AppMsg)
  {
    msg.DoneChoosingInstance? || msg.StartFetchPosts? || msg.DoneFetchPosts?
    || msg.FetchCommunities? || msg.DoneFetchCommunities? || msg.Login?
  }

  /** The handling of every message other than `PopBackStack`, which is the only
      one that works on the back stack (it leaves the view fields alone). */
  function Handle(v: ViewModel, msg: AppMsg, parse: string -> Result<L.UrlText>): (ViewModel, seq<Effect>)
  {
    match msg
    case DoneChoosingInstance(instanceUrl) => OnDoneChoosingInstance(v, instanceUrl, parse)
    case ChooseInstance => (v.(state := AppState.ChooseInstance), [Emit(FetchInstances)])
    case StartFetchPosts(postsType, removePrevious) => OnStartFetchPosts(v, postsType, removePrevious)
    case DoneFetchPosts(posts) => OnDoneFetchPosts(v, posts)
    case FetchCommunities(listing, removePrevious) => OnFetchCommunities(v, listing, removePrevious)
    case DoneFetchCommunities(communities) => OnDoneFetchCommunities(v, communities)
    case OpenPerson(personId) => (v.(state := AppState.Loading), [Spawn(GetPerson(personId, 1))])
    case DoneFetchPerson(person) =>
      (v.(state := AppState.Person), [Emit(ToProfilePage(ProfilePage.UpdatePerson(person)))])
    case OpenCommunity(communityId) => (v.(state := AppState.Loading), [Spawn(GetCommunity(communityId))])
    case DoneFetchCommunity(community) =>
      (v.(state := AppState.Community), [Emit(UpdateCommunity(community.communityView))])
    case OpenPost(postId) => (v.(state := AppState.Loading), [Spawn(GetPost(postId))])
    case DoneFetchPost(post) => (v.(state := AppState.Post), [Emit(UpdatePost(post))])
    case ShowLogin => (v.(state := AppState.Login), [])
    case Login(username, password, totpToken) => OnLogin(v, username, password, totpToken)
    case Logout => (v.(account := v.account.(jwt := None), loggedIn := false), [])
    case ShowMessage(text) => (v.(message := Some(text), state := AppState.Message), [])
    case OpenInbox => (v.(state := AppState.Inbox), [Emit(FetchInbox)])
    case LoggedIn => (v.(loggedIn := true), [SendSelf(StartFetchPosts(None, true))])
    case PopBackStack => (v, [])
    case ShowAbout => (v, [])
  }

  /** Handling never moves a page counter below 1. */
  lemma HandleKeepsPages(v: ViewModel, msg: AppMsg, parse: string -> Result<L.UrlText>)
    requires v.postsPage >= 1 && v.communitiesPage >= 1
    ensures Handle(v, msg, parse).0.postsPage >= 1 && Handle(v, msg, parse).0.communitiesPage >= 1
  {
    match msg {
      case DoneChoosingInstance(s) =>
        assert Handle(v, msg, parse) == OnDoneChoosingInstance(v, s, parse);
      case StartFetchPosts(t, rp) =>
        assert Handle(v, msg, parse) == OnStartFetchPosts(v, t, rp);
      case FetchCommunities(t, rp) =>
        assert Handle(v, msg, parse) == OnFetchCommunities(v, t, rp);
      case _ =>
    }
  }

  /** `App::update` as written. A recorded message is first pushed on the back
      stack; then the message is handled. `parse` is `reqwest::Url::parse`
      followed by serialisation. `PopBackStack` drops the top two entries and
      re-sends the second from the top; its unsigned `len() - 2` panics on a
      shorter stack. */
  function Step(m: Model, msg: AppMsg, parse: string -> Result<L.UrlText>): (r: Outcome)
    ensures r.Panic? <==> msg.PopBackStack? && |m.backQueue| < 2
  {
    var q := m.backQueue;
    if msg.PopBackStack? then
      if |q| < 2 then Panic
      else Next(Model(m.view, q[..|q| - 2]), [SendSelf(q[|q| - 2])])
    else
      var (v, effects) := Handle(m.view, msg, parse);
      Next(Model(v, if IsRecorded(msg) then q + [msg] else q), effects)
  }

  /** `App::update` with `PopBackStack` ignored while the back stack has fewer
      than two entries. The header's back button is shown only when the stack
      has more than one entry (src/main.rs:119), so this is the intended guard. */
  function StepGuarded(m: Model, msg: AppMsg, parse: string -> Result<L.UrlText>): (r: Outcome)
    ensures r.Next?
    ensures msg.PopBackStack? && |m.backQueue| < 2 ==> r == Next(m, [])
    ensures !(msg.PopBackStack? && |m.backQueue| < 2) ==> r == Step(m, msg, parse)
  {
    if msg.PopBackStack? && |m.backQueue| < 2 then Next(m, []) else Step(m, msg, parse)
  }

  /** Every step keeps the model well formed. */
  lemma StepGuardedKeepsWellFormed(m: Model, msg: AppMsg, parse: string -> Result<L.UrlText>)
    requires WellFormed(m)
    ensures WellFormed(StepGuarded(m, msg, parse).model)
  {
    var q := m.backQueue;
    var q' := StepGuarded(m, msg, parse).model.backQueue;
    if msg.PopBackStack? {
      if |q| >= 2 {
        assert q' == q[..|q| - 2];
        assert forall i :: 0 <= i < |q'| ==> q'[i] == q[i];
      }
    } else {
      HandleKeepsPages(m.view, msg, parse);
      if IsRecorded(msg) {
        assert q' == q + [msg];
        assert forall i :: 0 <= i < |q'| ==> q'[i] == if i < |q| then q[i] else msg;
      }
    }
  }

  /** The `Profile` menu entry: open the stored user's profile, if someone has
      logged in on this instance. */
  function ProfileAction(account: Account): (r: Option<AppMsg>)
    ensures r.Some? <==> account.name != ""
    ensures r.Some? ==> r.value == OpenPerson(account.id)
  {
    if account.name != "" then Some(OpenPerson(account.id)) else None
  }

  class App {
    var state: AppState
    var message: Option<string>
    var backQueue: seq<AppMsg>
    var posts: seq<L.PostView>
    var communities: seq<L.CommunityView>
    var loggedIn: bool
    var currentCommunitiesType: Option<L.ListingType>
    var currentPostsType: Option<L.ListingType>
    var currentCommunitiesPage: int
    var currentPostsPage: int
    var communitySearchText: string
    var account: Account

    /** The fields other than the back stack, as one value. */
    function View(): ViewModel
      reads this
    {
      ViewModel(state, message, posts, communities, loggedIn,
                currentCommunitiesType, currentPostsType, currentCommunitiesPage,
                currentPostsPage, communitySearchText, account)
    }

    /** All the fields, as one value. */
    function Snapshot(): Model
      reads this
    {
      Model(View(), backQueue)
    }

    ghost predicate Valid()
      reads this
    {
      WellFormed(Snapshot())
    }

    constructor (account: Account)
      ensures Snapshot() == InitModel(account).0
    {
      state := if account.instanceUrl == "" then AppState.ChooseInstance else AppState.Loading;
      this.account := account;
      loggedIn := account.jwt.Some?;
      message := None;
      backQueue := [];
      posts := [];
      communities := [];
      currentCommunitiesType := None;
      currentPostsType := None;
      currentCommunitiesPage := 1;
      currentPostsPage := 1;
      communitySearchText := "";
    }

    /** `App::init`: build the component from the stored account and, when an
        instance is already chosen, ask for the first page of posts. */
    static method Init(account: Account) returns (app: App, effects: seq<Effect>)
      ensures fresh(app) && app.Valid()
      ensures (app.Snapshot(), effects) == InitModel(account)
    {
      app := new App(account);
      effects := [];
      if account.instanceUrl != "" {
        effects := [SendSelf(StartFetchPosts(None, true))];
      }
    }

    /** `App::update`, with the back-stack underflow of `PopBackStack` guarded. */
    method Update(msg: AppMsg, parse: string -> Result<L.UrlText>) returns (effects: seq<Effect>)
      requires Valid()
      modifies this
      ensures Valid()
      ensures StepGuarded(old(Snapshot()), msg, parse) == Next(Snapshot(), effects)
    {
      StepGuardedKeepsWellFormed(Snapshot(), msg, parse);
      // a recorded message goes on the back stack before it is handled
      if IsRecorded(msg) {
        backQueue := backQueue + [msg];
      }
      if msg.PopBackStack? {
        effects := [];
        if |backQueue| >= 2 {
          effects := HandlePopBackStack();
        }
      } else {
        effects := Dispatch(msg, parse);
      }
    }

    /** The `match` of `App::update` for every message but `PopBackStack`. */
    method Dispatch(msg: AppMsg, parse: string -> Result<L.UrlText>) returns (effects: seq<Effect>)
      modifies this`state, this`message, this`posts, this`communities, this`loggedIn,
               this`currentCommunitiesType, this`currentPostsType, this`currentCommunitiesPage,
               this`currentPostsPage, this`account
      ensures Handle(old(View()), msg, parse) == (View(), effects)
    {
      if HasOwnHandler(msg) {
        effects := DispatchListing(msg, parse);
      } else {
        effects := DispatchScreen(msg, parse);
      }
    }

    /** The arms that choose the instance, log in, or fetch and show a list. */
    method DispatchListing(msg: AppMsg, parse: string -> Result<L.UrlText>) returns (effects: seq<Effect>)
      requires HasOwnHandler(msg)
      modifies this`state, this`posts, this`communities, this`loggedIn,
               this`currentCommunitiesType, this`currentPostsType, this`currentCommunitiesPage,
               this`currentPostsPage, this`account
      ensures Handle(old(View()), msg, parse) == (View(), effects)
    {
      effects := [];
      if msg.DoneChoosingInstance? {
        effects := HandleDoneChoosingInstance(msg.instanceUrl, parse);
      } else if msg.StartFetchPosts? {
        effects := HandleStartFetchPosts(msg.postsType, msg.removePrevious);
      } else if msg.DoneFetchPosts? {
        HandleDoneFetchPosts(msg.posts);
      } else if msg.FetchCommunities? {
        effects := HandleFetchCommunities(msg.communitiesType, msg.removePrevious);
      } else if msg.DoneFetchCommunities? {
        HandleDoneFetchCommunities(msg.communities);
      } else {
        effects := HandleLogin(msg.username, msg.password, msg.totpToken);
      }
    }

    /** The arms that only switch the screen, forward a message or start a request. */
    method DispatchScreen(msg: AppMsg, parse: string -> Result<L.UrlText>) returns (effects: seq<Effect>)
      requires !HasOwnHandler(msg)
      modifies this`state, this`message, this`loggedIn, this`account
      ensures Handle(old(View()), msg, parse) == (View(), effects)
    {
      effects := [];
      match msg {
        case ChooseInstance =>
          state := AppState.ChooseInstance;
          effects := [Emit(FetchInstances)];
        case OpenPerson(personId) =>
          state := AppState.Loading;
          effects := [Spawn(GetPerson(personId, 1))];
        case DoneFetchPerson(person) =>
          effects := [Emit(ToProfilePage(ProfilePage.UpdatePerson(person)))];
          state := AppState.Person;
        case OpenCommunity(communityId) =>
          state := AppState.Loading;
          effects := [Spawn(GetCommunity(communityId))];
        case DoneFetchCommunity(community) =>
          effects := [Emit(UpdateCommunity(community.communityView))];
          state := AppState.Community;
        case OpenPost(postId) =>
          state := AppState.Loading;
          effects := [Spawn(GetPost(postId))];
        case DoneFetchPost(post) =>
          effects := [Emit(UpdatePost(post))];
          state := AppState.Post;
        case ShowLogin =>
          state := AppState.Login;
        case Logout =>
          account := account.(jwt := None);
          loggedIn := false;
        case ShowMessage(text) =>
          message := Some(text);
          state := AppState.Message;
        case OpenInbox =>
          state := AppState.Inbox;
          effects := [Emit(FetchInbox)];
        case LoggedIn =>
          loggedIn := true;
          effects := [SendSelf(StartFetchPosts(None, true))];
        case PopBackStack =>
        case ShowAbout =>
        case _ =>
          assert false;
      }
    }

    method HandleDoneChoosingInstance(instanceUrl: string, parse: string -> Result<L.UrlText>)
      returns (effects: seq<Effect>)
      modifies this`account, this`state, this`loggedIn
      ensures OnDoneChoosingInstance(old(View()), instanceUrl, parse) == (View(), effects)
    {
      effects := [];
      if Trim(instanceUrl) != [] {
        var urlWithScheme := WithScheme(instanceUrl);
        match parse(urlWithScheme) {
          case Ok(url) =>
            // drop the serialisation's last character (the '/' that ends a bare host)
            account := account.(instanceUrl := url[..|url| - 1], jwt := None);
            state := AppState.Loading;
            loggedIn := false;
            effects := [SendSelf(StartFetchPosts(None, true))];
          case Err(err) =>
            effects := [SendSelf(ShowMessage(err))];
        }
      }
    }

    method HandleStartFetchPosts(postsType: Option<L.ListingType>, removePrevious: bool)
      returns (effects: seq<Effect>)
      modifies this`currentPostsType, this`currentPostsPage
      ensures OnStartFetchPosts(old(View()), postsType, removePrevious) == (View(), effects)
    {
      currentPostsType := postsType;
      var page := if removePrevious then 1 else currentPostsPage + 1;
      currentPostsPage := page;
      effects := [Spawn(ListPosts(page, postsType))];
    }

    method HandleDoneFetchPosts(newPosts: seq<L.PostView>)
      modifies this`state, this`posts
      ensures OnDoneFetchPosts(old(View()), newPosts) == (View(), [])
    {
      state := AppState.Posts;
      if currentPostsPage == 1 {
        posts := [];
      }
      ghost var kept := posts;
      for i := 0 to |newPosts|
        modifies this`posts
        invariant posts == kept + newPosts[..i]
      {
        posts := posts + [newPosts[i]];
      }
      assert newPosts[..|newPosts|] == newPosts;
    }

    method HandleFetchCommunities(listing: Option<L.ListingType>, removePrevious: bool)
      returns (effects: seq<Effect>)
      modifies this`state, this`currentCommunitiesPage, this`currentCommunitiesType
      ensures OnFetchCommunities(old(View()), listing, removePrevious) == (View(), effects)
    {
      var query := if communitySearchText == "" then None else Some(communitySearchText);
      state := AppState.Communities;
      var page := if removePrevious then 1 else currentCommunitiesPage + 1;
      currentCommunitiesPage := page;
      currentCommunitiesType := listing;
      effects := [Spawn(ListCommunities(page, query, listing))];
    }

    method HandleDoneFetchCommunities(newCommunities: seq<L.CommunityView>)
      modifies this`state, this`communities
      ensures OnDoneFetchCommunities(old(View()), newCommunities) == (View(), [])
    {
      state := AppState.Communities;
      if currentCommunitiesPage == 1 {
        communities := [];
      }
      ghost var kept := communities;
      for i := 0 to |newCommunities|
        modifies this`communities
        invariant communities == kept + newCommunities[..i]
      {
        communities := communities + [newCommunities[i]];
      }
      assert newCommunities[..|newCommunities|] == newCommunities;
    }

    method HandleLogin(username: string, password: string, totpToken: string)
      returns (effects: seq<Effect>)
      modifies this`state
      ensures OnLogin(old(View()), username, password, totpToken) == (View(), effects)
    {
      effects := [];
      if account.instanceUrl != "" {
        var token := if totpToken == "" then None else Some(totpToken);
        state := AppState.Loading;
        effects := [Spawn(LoginRequest(username, password, token))];
      }
    }

    /** `PopBackStack` on a stack of at least two entries: re-send the second
        from the top, then remove the top entry twice. */
    method HandlePopBackStack() returns (effects: seq<Effect>)
      requires |backQueue| >= 2
      modifies this`backQueue
      ensures var q := old(backQueue);
              backQueue == q[..|q| - 2] && effects == [SendSelf(q[|q| - 2])]
    {
      var action := backQueue[|backQueue| - 2];
      effects := [SendSelf(action)];
      ghost var q := backQueue;
      for k := 0 to 2
        invariant backQueue == q[..|q| - k]
      {
        backQueue := backQueue[..|backQueue| - 1];
      }
    }
  }
}
