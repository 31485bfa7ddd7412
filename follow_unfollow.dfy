/** The follow/unfollow button directive: which of its two buttons are shown,
    whether it is visible at all, and what a click does to the displayed user
    and which relations-service call it makes. */
module FollowUnfollow {
  import opened Wrappers

  /** A user id as the templates bind it: a number, a string, null or
      undefined. Equality of `Id`s is the language's strict equality
      (`1 !== "1"`, `null !== undefined`). */
  datatype Id = Undefined | Null | Num(n: int) | Str(s: string)

  /** The displayed user; the directive shares this object with its parent
      scope and flips its `alreadyFollowing` flag in place. An absent flag is
      `false`. */
  class User {
    const id: Id
    var alreadyFollowing: bool

    constructor (id: Id, alreadyFollowing: bool)
      ensures this.id == id && this.alreadyFollowing == alreadyFollowing
    {
      this.id := id;
      this.alreadyFollowing := alreadyFollowing;
    }
  }

  /** The directive's bindings: the user, the list of followed ids (`None`
      when not supplied) and the truthiness of the two flags. */
  datatype Scope = Scope(user: User, following: Option<seq<Id>>, showFollow: bool, showUnfollow: bool)

  /** A call made to the relations service. */
  datatype RelsCall = FollowProfile(id: Id) | UnfollowProfile(id: Id)

  /** `s.indexOf(x)`: the first position holding `x`, or -1 when there is none. */
  function IndexOf(s: seq<Id>, x: Id): (i: int)
    ensures -1 <= i < |s|
    ensures 0 <= i ==> s[i] == x
    ensures forall k :: 0 <= k < |s| && (i == -1 || k < i) ==> s[k] != x
    decreases |s|
  {
    if |s| == 0 then -1
    else if s[0] == x then 0
    else
      var j := IndexOf(s[1..], x);
      if j == -1 then -1 else j + 1
  }

  /** Whether the list of followed ids holds `userId`. */
  function AlreadyFollowing(following: seq<Id>, userId: Id): (b: bool)
    ensures b <==> userId in following
  {
    IndexOf(following, userId) != -1
  }

  /** The unfollow button: with its flag set, shown when the user is already
      followed; with neither flag set, shown; otherwise hidden. */
  function ShowUnfollow(flagFollow: bool, flagUnfollow: bool, following: seq<Id>, userId: Id): (r: bool)
    ensures flagUnfollow ==> (r <==> userId in following)
    ensures !flagUnfollow ==> (r <==> !flagFollow)
  {
    if flagUnfollow then AlreadyFollowing(following, userId) else !flagFollow
  }

  /** The follow button: the same rule with the flags swapped, shown under
      its flag when the user is not yet followed. */
  function ShowFollow(flagFollow: bool, flagUnfollow: bool, following: seq<Id>, userId: Id): (r: bool)
    ensures flagFollow ==> (r <==> userId !in following)
    ensures !flagFollow ==> (r <==> !flagUnfollow)
  {
    if flagFollow then !AlreadyFollowing(following, userId) else !flagUnfollow
  }

  /** The directive is visible when someone is logged in (`rootUser` is the
      logged-in user's id, `None` when nobody is), that user's id is defined,
      and it is not the displayed user. */
  function IsVisible(rootUser: Option<Id>, userId: Id): (r: bool)
    ensures r <==> rootUser.Some? && rootUser.value != Undefined && userId != rootUser.value
  {
    match rootUser
    case None => false
    case Some(rootId) => rootId != Undefined && userId != rootId
  }

  /** With neither flag set both buttons are shown; with both set exactly one is. */
  lemma ButtonsShown(following: seq<Id>, userId: Id)
    ensures ShowFollow(false, false, following, userId) && ShowUnfollow(false, false, following, userId)
    ensures ShowFollow(true, true, following, userId) != ShowUnfollow(true, true, following, userId)
  {
  }

  /** With only one flag set, only that button can be shown. */
  lemma SingleFlagShowsOnlyItsButton(following: seq<Id>, userId: Id)
    ensures !ShowUnfollow(true, false, following, userId)
    ensures !ShowFollow(false, true, following, userId)
  {
  }

  class FollowUnfollowButtonController {
    const scope: Scope
    const rootUser: Option<Id>

    var user: User
    var following: seq<Id>
    var showFollow: bool
    var showUnfollow: bool
    var isVisible: bool

    /** Building the controller runs its initialisation. */
    constructor (rootUser: Option<Id>, scope: Scope)
      ensures this.scope == scope && this.rootUser == rootUser
      ensures user == scope.user
      ensures following == scope.following.GetOr([])
      ensures showUnfollow == ShowUnfollow(scope.showFollow, scope.showUnfollow, following, user.id)
      ensures showFollow == ShowFollow(scope.showFollow, scope.showUnfollow, following, user.id)
      ensures isVisible == IsVisible(rootUser, user.id)
    {
      this.scope := scope;
      this.rootUser := rootUser;
      user := scope.user;
      following := [];
      showFollow, showUnfollow, isVisible := false, false, false;
      new;
      NgOnInit();
    }

    /** Derives the fields from the bindings; a missing list of followed ids
        is the empty list. */
    method NgOnInit()
      modifies this
      ensures user == scope.user
      ensures following == scope.following.GetOr([])
      ensures showUnfollow == ShowUnfollow(scope.showFollow, scope.showUnfollow, following, user.id)
      ensures showFollow == ShowFollow(scope.showFollow, scope.showUnfollow, following, user.id)
      ensures isVisible == IsVisible(rootUser, user.id)
    {
      user := scope.user;
      following := if scope.following.Some? then scope.following.value else [];
      showUnfollow := if scope.showUnfollow then CheckAlreadyFollowing(user.id) else !scope.showFollow;
      showFollow := if scope.showFollow then !CheckAlreadyFollowing(user.id) else !scope.showUnfollow;
      isVisible := rootUser.Some? && rootUser.value != Undefined && user.id != rootUser.value;
    }

    function CheckAlreadyFollowing(userId: Id): (b: bool)
      reads this
      ensures b <==> userId in following
    {
      AlreadyFollowing(following, userId)
    }

    /** Dispatches a click; any action other than "follow" or "unfollow"
        changes nothing and calls nothing. */
    method OnClick(action: string) returns (issued: Option<RelsCall>)
      modifies user
      ensures action == "follow" ==> user.alreadyFollowing == !old(user.alreadyFollowing)
                                     && issued == (if isVisible then Some(FollowProfile(user.id)) else None)
      ensures action == "unfollow" ==> !user.alreadyFollowing && issued == Some(UnfollowProfile(user.id))
      ensures action != "follow" && action != "unfollow" ==>
                user.alreadyFollowing == old(user.alreadyFollowing) && issued.None?
    {
      if action == "follow" {
        issued := Follow();
      } else if action == "unfollow" {
        issued := Unfollow();
      } else {
        issued := None;
      }
    }

    /** Flips the user's following flag, and calls the service only when the
        directive is visible. */
    method Follow() returns (issued: Option<RelsCall>)
      modifies user
      ensures user.alreadyFollowing == !old(user.alreadyFollowing)
      ensures issued == if isVisible then Some(FollowProfile(user.id)) else None
    {
      user.alreadyFollowing := !user.alreadyFollowing;
      issued := None;
      if isVisible {
        issued := Some(FollowProfile(user.id));
      }
    }

    /** Clears the user's following flag and calls the service, visible or not. */
    method Unfollow() returns (issued: Option<RelsCall>)
      modifies user
      ensures !user.alreadyFollowing
      ensures issued == Some(UnfollowProfile(user.id))
    {
      user.alreadyFollowing := false;
      issued := Some(UnfollowProfile(user.id));
    }
  }

  /** Following twice restores the user's flag; the calls made are the same
      each time. */
  method FollowTwiceRestores(c: FollowUnfollowButtonController) returns (first: Option<RelsCall>, second: Option<RelsCall>)
    modifies c.user
    ensures c.user.alreadyFollowing == old(c.user.alreadyFollowing)
    ensures first == second
  {
    first := c.Follow();
    second := c.Follow();
  }
}
