/** What the `App` message handler of `src/main.rs` promises, stated over the
    model of `AppComponent` and proved for all models and messages. */
module AppProperties {
  import opened Wrappers
  import L = LemmyTypes
  import opened RustStr
  import opened AppComponent

  /** The models reached by handling `msgs` one after the other, starting from `m`
      (the messages include those the component sent itself). */
  function Run(m: Model, msgs: seq<AppMsg>, parse: string -> Result<L.UrlText>): Model
    decreases |msgs|
  {
    if msgs == [] then m else Run(StepGuarded(m, msgs[0], parse).model, msgs[1..], parse)
  }

  /** The messages of `msgs` that the back stack saves, in order. */
  function RecordedOf(msgs: seq<AppMsg>): (r: seq<AppMsg>)
    ensures |r| <= |msgs|
    ensures forall x :: x in r <==> x in msgs && IsRecorded(x)
  {
    if msgs == [] then []
    else (if IsRecorded(msgs[0]) then [msgs[0]] else []) + RecordedOf(msgs[1..])
  }

  // ---------------------------------------------------------------------------
  // The back stack

  /** Before handling, exactly the `Done*` results and `ShowMessage` are pushed on
      the back stack; any other message except `PopBackStack` leaves it alone. */
  lemma BackQueueRecordsMessage(m: Model, msg: AppMsg, parse: string -> Result<L.UrlText>)
    requires !msg.PopBackStack?
    ensures Step(m, msg, parse).Next?
    ensures IsRecorded(msg) ==> Step(m, msg, parse).model.backQueue == m.backQueue + [msg]
    ensures !IsRecorded(msg) ==> Step(m, msg, parse).model.backQueue == m.backQueue
  {
  }

  /** Going back: the top two entries are dropped and the second from the top is
      sent again; handling it pushes it back, so the stack ends one entry shorter
      than before, as its old prefix. */
  lemma PopBackStackShrinksByOne(m: Model, parse: string -> Result<L.UrlText>)
    requires WellFormed(m) && |m.backQueue| >= 2
    ensures var q := m.backQueue;
            var r := Step(m, PopBackStack, parse);
            r == Next(Model(m.view, q[..|q| - 2]), [SendSelf(q[|q| - 2])])
            && Step(r.model, q[|q| - 2], parse).model.backQueue == q[..|q| - 1]
  {
    var q := m.backQueue;
    assert IsRecorded(q[|q| - 2]);
    assert q[..|q| - 2] + [q[|q| - 2]] == q[..|q| - 1];
  }

  /** Over a run without `PopBackStack`, the back stack grows by exactly the
      recorded messages of the run, in the order they were handled. */
  lemma {:induction false} RunRecordsHistory(m: Model, msgs: seq<AppMsg>, parse: string -> Result<L.UrlText>)
    requires forall i :: 0 <= i < |msgs| ==> !msgs[i].PopBackStack?
    ensures Run(m, msgs, parse).backQueue == m.backQueue + RecordedOf(msgs)
    decreases |msgs|
  {
    if msgs != [] {
      var head := if IsRecorded(msgs[0]) then [msgs[0]] else [];
      var m1 := StepGuarded(m, msgs[0], parse).model;
      BackQueueRecordsMessage(m, msgs[0], parse);
      assert m1.backQueue == m.backQueue + head;
      RunRecordsHistory(m1, msgs[1..], parse);
      assert RecordedOf(msgs) == head + RecordedOf(msgs[1..]);
      assert m.backQueue + head + RecordedOf(msgs[1..]) == m.backQueue + RecordedOf(msgs);
    }
  }

  /** Every run keeps the model well formed. */
  lemma {:induction false} RunKeepsWellFormed(m: Model, msgs: seq<AppMsg>, parse: string -> Result<L.UrlText>)
    requires WellFormed(m)
    ensures WellFormed(Run(m, msgs, parse))
    decreases |msgs|
  {
    if msgs != [] {
      StepGuardedKeepsWellFormed(m, msgs[0], parse);
      RunKeepsWellFormed(StepGuarded(m, msgs[0], parse).model, msgs[1..], parse);
    }
  }

  // ---------------------------------------------------------------------------
  // Pagination

  /** `StartFetchPosts(t, removePrevious)` moves the post counter to page 1 or to
      the next page, remembers `t`, requests that page, and changes nothing else. */
  lemma StartFetchPostsSetsPage(m: Model, t: Option<L.ListingType>, removePrevious: bool,
                                parse: string -> Result<L.UrlText>)
    ensures var r := Step(m, StartFetchPosts(t, removePrevious), parse);
            r.Next?
            && r.model.view.postsPage == (if removePrevious then 1 else m.view.postsPage + 1)
            && r.model.view.postsType == t
            && r.effects == [Spawn(ListPosts(r.model.view.postsPage, t))]
            && r.model.view.(postsPage := m.view.postsPage, postsType := m.view.postsType) == m.view
            && r.model.backQueue == m.backQueue
  {
  }

  /** `FetchCommunities(t, removePrevious)` does the same for the community
      counter, shows the community screen at once, and passes the search text
      as the query unless it is empty. */
  lemma FetchCommunitiesSetsPage(m: Model, t: Option<L.ListingType>, removePrevious: bool,
                                 parse: string -> Result<L.UrlText>)
    ensures var r := Step(m, FetchCommunities(t, removePrevious), parse);
            r.Next?
            && r.model.view.communitiesPage == (if removePrevious then 1 else m.view.communitiesPage + 1)
            && r.model.view.communitiesType == t
            && r.model.view.state == AppState.Communities
            && r.effects == [Spawn(ListCommunities(r.model.view.communitiesPage,
                                                   if m.view.searchText == "" then None else Some(m.view.searchText), t))]
            && r.model.view.(communitiesPage := m.view.communitiesPage,
                             communitiesType := m.view.communitiesType, state := m.view.state) == m.view
            && r.model.backQueue == m.backQueue
  {
  }

  /** `DoneFetchPosts(ps)` shows the post list: on page 1 the list becomes `ps`,
      on a later page `ps` follows the rows already there, in order. */
  lemma DoneFetchPostsReplacesOrAppends(m: Model, ps: seq<L.PostView>, parse: string -> Result<L.UrlText>)
    ensures var r := Step(m, DoneFetchPosts(ps), parse);
            r.Next? && r.effects == []
            && r.model.view.state == AppState.Posts
            && (m.view.postsPage == 1 ==> r.model.view.posts == ps)
            && (m.view.postsPage != 1 ==> |r.model.view.posts| == |m.view.posts| + |ps|
                                          && r.model.view.posts[..|m.view.posts|] == m.view.posts
                                          && r.model.view.posts[|m.view.posts|..] == ps)
            && r.model.view.(state := m.view.state, posts := m.view.posts) == m.view
  {
    var r := Step(m, DoneFetchPosts(ps), parse);
    if m.view.postsPage != 1 {
      assert r.model.view.posts == m.view.posts + ps;
    }
  }

  /** `DoneFetchCommunities(cs)` treats the community list the same way. */
  lemma DoneFetchCommunitiesReplacesOrAppends(m: Model, cs: seq<L.CommunityView>,
                                              parse: string -> Result<L.UrlText>)
    ensures var r := Step(m, DoneFetchCommunities(cs), parse);
            r.Next? && r.effects == []
            && r.model.view.state == AppState.Communities
            && (m.view.communitiesPage == 1 ==> r.model.view.communities == cs)
            && (m.view.communitiesPage != 1 ==> |r.model.view.communities| == |m.view.communities| + |cs|
                                                && r.model.view.communities[..|m.view.communities|] == m.view.communities
                                                && r.model.view.communities[|m.view.communities|..] == cs)
            && r.model.view.(state := m.view.state, communities := m.view.communities) == m.view
  {
    var r := Step(m, DoneFetchCommunities(cs), parse);
    if m.view.communitiesPage != 1 {
      assert r.model.view.communities == m.view.communities + cs;
    }
  }

  /** A fresh fetch followed by its answer shows exactly the answer; "More"
      followed by its answer keeps the rows shown and adds the answer after them. */
  lemma FetchPostsThenDone(m: Model, t: Option<L.ListingType>, removePrevious: bool,
                           ps: seq<L.PostView>, parse: string -> Result<L.UrlText>)
    requires WellFormed(m)
    ensures removePrevious ==>
      Run(m, [StartFetchPosts(t, removePrevious), DoneFetchPosts(ps)], parse).view.posts == ps
    ensures !removePrevious ==>
      Run(m, [StartFetchPosts(t, removePrevious), DoneFetchPosts(ps)], parse).view.posts == m.view.posts + ps
  {
    var msgs := [StartFetchPosts(t, removePrevious), DoneFetchPosts(ps)];
    var m1 := StepGuarded(m, msgs[0], parse).model;
    var m2 := StepGuarded(m1, msgs[1], parse).model;
    assert m1.view.posts == m.view.posts;
    assert m1.view.postsPage == 1 <==> removePrevious;
    assert msgs[1..][1..] == [];
    assert Run(m, msgs, parse) == Run(m1, msgs[1..], parse) == Run(m2, [], parse) == m2;
  }

  /** The same two-step behaviour for the community list. */
  lemma FetchCommunitiesThenDone(m: Model, t: Option<L.ListingType>, removePrevious: bool,
                                 cs: seq<L.CommunityView>, parse: string -> Result<L.UrlText>)
    requires WellFormed(m)
    ensures removePrevious ==>
      Run(m, [FetchCommunities(t, removePrevious), DoneFetchCommunities(cs)], parse).view.communities == cs
    ensures !removePrevious ==>
      Run(m, [FetchCommunities(t, removePrevious), DoneFetchCommunities(cs)], parse).view.communities
      == m.view.communities + cs
  {
    var msgs := [FetchCommunities(t, removePrevious), DoneFetchCommunities(cs)];
    var m1 := StepGuarded(m, msgs[0], parse).model;
    var m2 := StepGuarded(m1, msgs[1], parse).model;
    assert m1.view.communities == m.view.communities;
    assert m1.view.communitiesPage == 1 <==> removePrevious;
    assert msgs[1..][1..] == [];
    assert Run(m, msgs, parse) == Run(m1, msgs[1..], parse) == Run(m2, [], parse) == m2;
  }

  // ---------------------------------------------------------------------------
  // Choosing an instance, logging in and out, messages

  /** An instance address of white space only is ignored. */
  lemma BlankInstanceIgnored(m: Model, s: string, parse: string -> Result<L.UrlText>)
    requires AllWhitespace(s)
    ensures Step(m, DoneChoosingInstance(s), parse) == Next(m, [])
  {
    TrimEmptyIffAllWhitespace(s);
  }

  /** Otherwise the address, given a scheme when it lacks one, is parsed. On
      success the serialised URL minus its last character becomes the account's
      instance, the token is dropped, the user is logged out and the first page
      of posts is asked for; on failure the error is shown and nothing changes. */
  lemma InstanceChosen(m: Model, s: string, parse: string -> Result<L.UrlText>)
    requires !AllWhitespace(s)
    ensures var r := Step(m, DoneChoosingInstance(s), parse);
            match parse(WithScheme(s))
            case Ok(url) =>
              r.Next?
              && r.model.view.account == m.view.account.(instanceUrl := url[..|url| - 1], jwt := None)
              && r.model.view.state == AppState.Loading && !r.model.view.loggedIn
              && r.effects == [SendSelf(StartFetchPosts(None, true))]
              && r.model.view.(account := m.view.account, state := m.view.state,
                               loggedIn := m.view.loggedIn) == m.view
              && r.model.backQueue == m.backQueue
            case Err(e) =>
              r == Next(m, [SendSelf(ShowMessage(e))])
  {
    TrimEmptyIffAllWhitespace(s);
  }

  /** `Logout` forgets the token and marks the user logged out, on whatever
      screen is shown; `LoggedIn` marks the user logged in and refetches the
      first page of posts. */
  lemma LogoutAndLoggedIn(m: Model, parse: string -> Result<L.UrlText>)
    ensures Step(m, Logout, parse)
            == Next(m.(view := m.view.(account := m.view.account.(jwt := None), loggedIn := false)), [])
    ensures Step(m, Logout, parse).model.view.state == m.view.state
    ensures Step(m, LoggedIn, parse)
            == Next(m.(view := m.view.(loggedIn := true)), [SendSelf(StartFetchPosts(None, true))])
  {
  }

  /** `Login` does nothing before an instance is chosen; otherwise it shows the
      loading screen and starts the login request, an empty one-time token
      being sent as none. */
  lemma LoginNeedsInstance(m: Model, user: string, password: string, totp: string,
                           parse: string -> Result<L.UrlText>)
    ensures m.view.account.instanceUrl == "" ==>
      Step(m, AppMsg.Login(user, password, totp), parse) == Next(m, [])
    ensures m.view.account.instanceUrl != "" ==>
      var r := Step(m, AppMsg.Login(user, password, totp), parse);
      r.Next? && r.model == m.(view := m.view.(state := AppState.Loading))
      && |r.effects| == 1 && r.effects[0].Spawn? && r.effects[0].request.LoginRequest?
      && r.effects[0].request.username == user && r.effects[0].request.password == password
      && (r.effects[0].request.totpToken.None? <==> totp == "")
      && (totp != "" ==> r.effects[0].request.totpToken == Some(totp))
  {
  }

  /** `ShowMessage(t)` is saved on the back stack and shows `t` on the message screen. */
  lemma ShowMessageShows(m: Model, t: string, parse: string -> Result<L.UrlText>)
    ensures Step(m, ShowMessage(t), parse)
            == Next(Model(m.view.(message := Some(t), state := AppState.Message),
                          m.backQueue + [ShowMessage(t)]), [])
  {
  }

  // ---------------------------------------------------------------------------
  // The unguarded "Go back" button

  /** With an instance already stored, the first fetch of posts can fail; its
      error is then the only entry of the back stack, the message screen shows
      its "Go back" button, and pressing it makes `PopBackStack` panic as written.
      The guarded handler leaves the model as it is instead. */
  lemma GoBackFromFirstMessagePanics(account: Account, err: string, parse: string -> Result<L.UrlText>)
    requires account.instanceUrl != ""
    ensures var (m0, e0) := InitModel(account);
            var r1 := Step(m0, StartFetchPosts(None, true), parse);
            var m2 := Step(r1.model, ShowMessage(err), parse).model;
            e0 == [SendSelf(StartFetchPosts(None, true))]
            && r1.effects == [Spawn(ListPosts(1, None))]
            && m2.view.state == AppState.Message && m2.backQueue == [ShowMessage(err)]
            && Step(m2, PopBackStack, parse) == Panic
            && StepGuarded(m2, PopBackStack, parse) == Next(m2, [])
  {
  }
}
