/** The user service: a repository of User objects keyed by id, role-gated
    favourite lists, and reads that resolve the stored ids through the upstream
    fountain and water-analysis lookups. Every favourite operation checks, in
    this order, that the user exists and that its role fits, then changes or
    reads the list. Changes go through the user object the repository hands
    out, so they are visible through the repository at once. */
module UserServices {
  import opened Common
  import opened Users
  import opened Lists
  import opened Resolution

  /** Whether some user of the view has the given email (findUserByEmail != null). */
  predicate EmailTaken(view: map<int, UserRecord>, email: Option<string>)
  {
    exists k :: k in view && view[k].email == email
  }

  /** Every stored user's own email counts as taken, so an update that keeps a
      user's email unchanged is refused. */
  lemma OwnEmailTaken(view: map<int, UserRecord>, id: int)
    requires id in view
    ensures EmailTaken(view, view[id].email)
  {
    assert view[id].email == view[id].email;
  }

  /** The ids of `ids`, in order, whose users have the given role. */
  function WithRole(ids: seq<int>, view: map<int, UserRecord>, role: Role): (r: seq<int>)
    ensures forall x :: x in r <==> x in ids && x in view && view[x].role == role
    ensures |r| <= |ids|
  {
    if ids == [] then []
    else
      var n := |ids| - 1;
      var rest := WithRole(ids[..n], view, role);
      assert ids == ids[..n] + [ids[n]];
      if ids[n] in view && view[ids[n]].role == role then rest + [ids[n]] else rest
  }

  /** One more id at the end of the listing is kept exactly when its user has the
      role. */
  lemma WithRoleSnoc(ids: seq<int>, x: int, view: map<int, UserRecord>, role: Role)
    ensures WithRole(ids + [x], view, role) ==
      if x in view && view[x].role == role then WithRole(ids, view, role) + [x] else WithRole(ids, view, role)
  {
    assert (ids + [x])[..|ids|] == ids;
  }

  /** Filtering a concatenation filters each part and keeps the parts in order,
      so `WithRole` keeps the listing order and every occurrence of a kept id. */
  lemma {:induction false} WithRoleAppend(a: seq<int>, b: seq<int>, view: map<int, UserRecord>, role: Role)
    ensures WithRole(a + b, view, role) == WithRole(a, view, role) + WithRole(b, view, role)
  {
    if b == [] {
      assert a + b == a;
    } else {
      var n := |b| - 1;
      WithRoleAppend(a, b[..n], view, role);
      assert (a + b)[..|a + b| - 1] == a + b[..n];
      assert (a + b)[|a + b| - 1] == b[n];
    }
  }

  /** The user objects a repository map holds. */
  ghost function ValuesOf(m: map<int, User>): set<User>
  {
    set k | k in m :: m[k]
  }

  /** Adding a new key adds exactly its value to the values of a map. */
  lemma InsertValues(m: map<int, User>, k: int, u: User)
    requires k !in m
    ensures ValuesOf(m[k := u]) == ValuesOf(m) + {u}
  {
    forall o | o in ValuesOf(m[k := u]) ensures o in ValuesOf(m) + {u} {
      var j :| j in m[k := u] && m[k := u][j] == o;
      if j != k { assert m[j] == o; }
    }
    assert m[k := u][k] == u;
    forall o | o in ValuesOf(m) ensures o in ValuesOf(m[k := u]) {
      var j :| j in m && m[j] == o;
      assert m[k := u][j] == o;
    }
  }

  /** The records of the user objects a repository map holds, by id. */
  ghost function RecordsOf(m: map<int, User>): map<int, UserRecord>
    reads ValuesOf(m)
  {
    map k | k in m :: m[k].Record()
  }

  /** Storing a new object under a new key adds exactly its record. */
  lemma RecordsInsert(m: map<int, User>, k: int, u: User)
    requires k !in m
    ensures RecordsOf(m[k := u]) == RecordsOf(m)[k := u.Record()]
  {
  }

  /** The record stored under a key is the record of the object under it. */
  lemma RecordAt(m: map<int, User>, k: int)
    requires k in m
    ensures k in RecordsOf(m) && RecordsOf(m)[k] == m[k].Record()
  {
  }

  function Min(a: int, b: int): (r: int) { if a <= b then a else b }

  class UserService {
    /** The repository: user objects by id. */
    var users: map<int, User>
    /** The ids in the order the repository lists them (findAll). */
    var order: seq<int>
    /** The next id the repository hands out (identity generation). */
    var nextId: int

    ghost function Objects(): set<User>
      reads this
    {
      ValuesOf(users)
    }

    /** Each user is stored under its own id, `order` lists every stored id once,
        and every id handed out so far is below `nextId`. */
    ghost predicate Valid()
      reads this, Objects()
    {
      && (forall k :: k in users ==> users[k].id == k)
      && (forall k :: k in users <==> k in order)
      && (forall i, j :: 0 <= i < j < |order| ==> order[i] != order[j])
      && (forall k :: k in users ==> k < nextId)
    }

    /** The content of the repository as values. */
    ghost function View(): map<int, UserRecord>
      reads this, Objects()
    {
      RecordsOf(users)
    }

    constructor ()
      ensures Valid() && View() == map[] && order == [] && Objects() == {}
    {
      users := map[];
      order := [];
      nextId := 1;
    }

    /** getUserById: the stored user, or UserNotFoundException. */
    function GetUserById(id: int): (r: Result<User>)
      reads this
      ensures r.Ok? <==> id in users
      ensures r.Ok? ==> r.value == users[id]
      ensures r.Err? ==> r.error == UserNotFound
    {
      if id in users then Ok(users[id]) else Err(UserNotFound)
    }

    /** updateUser: the ids must agree and no stored user (the one being updated
        included) may already have the new email; then the stored user takes the
        name, email and password of `user`, and the repository save may fail. */
    method UpdateUser(id: int, user: User, saveOk: bool) returns (r: Result<User>)
      requires Valid()
      modifies Objects()
      ensures Valid() && users == old(users)
      ensures id != old(user.id) ==> r == Err(ParamInvalid) && View() == old(View())
      ensures id == old(user.id) && EmailTaken(old(View()), old(user.email)) ==>
                r == Err(ParamInvalid) && View() == old(View())
      ensures id == old(user.id) && !EmailTaken(old(View()), old(user.email)) && id !in old(View()) ==>
                r == Err(UserNotFound) && View() == old(View())
      ensures id == old(user.id) && !EmailTaken(old(View()), old(user.email)) && id in old(View()) ==>
                && View() == old(View())[id := old(View())[id].(name := old(user.name), email := old(user.email), password := old(user.password))]
                && r == (if saveOk then Ok(user) else Err(RepositoryFailure))
    {
      if id != user.id {
        return Err(ParamInvalid);
      }
      if exists k :: k in users && users[k].email == user.email {
        assert EmailTaken(View(), user.email) by {
          var k :| k in users && users[k].email == user.email;
          assert View()[k].email == user.email;
        }
        return Err(ParamInvalid);
      }
      assert !EmailTaken(View(), user.email);
      if id !in users {
        return Err(UserNotFound);
      }
      var u := users[id];
      ghost var before := View();
      var name, email, password := user.name, user.email, user.password;
      u.SetName(name);
      u.SetEmail(email);
      u.SetPassword(password);
      assert forall k :: k in users && k != id ==> users[k] != u;
      assert View() == before[id := before[id].(name := name, email := email, password := password)];
      r := if saveOk then Ok(user) else Err(RepositoryFailure);
    }

    /** createUser: the repository saves the new user under a fresh id; a failed
        save becomes RepositoryException and stores nothing. No email check. */
    method CreateUser(user: User, saveOk: bool) returns (r: Result<User>)
      requires Valid() && user !in Objects()
      modifies this, user
      ensures Valid()
      ensures !saveOk ==> && r == Err(RepositoryFailure)
                          && users == old(users) && order == old(order) && nextId == old(nextId)
                          && View() == old(View()) && user.Record() == old(user.Record())
      ensures saveOk ==> && r == Ok(user)
                         && users == old(users)[old(nextId) := user] && nextId == old(nextId) + 1
                         && Objects() == old(Objects()) + {user}
                         && View() == old(View())[old(nextId) := old(user.Record()).(id := old(nextId))]
                         && order == old(order) + [old(nextId)]
    {
      if !saveOk {
        return Err(RepositoryFailure);
      }
      ghost var before := View();
      ghost var oldUsers := users;
      var newId := nextId;
      assert newId !in order && newId !in users;
      assert forall k :: k in oldUsers ==> oldUsers[k] != user;
      user.SetId(newId);
      assert RecordsOf(oldUsers) == before;
      users := users[newId := user];
      order := order + [newId];
      nextId := nextId + 1;
      RecordsInsert(oldUsers, newId, user);
      InsertValues(oldUsers, newId, user);
      r := Ok(user);
    }

    /** getUserFavourites: for a Client, the fountain of every stored id, in order. */
    method GetUserFavourites<F>(id: int, fountains: int -> Fetch<F>) returns (r: Result<seq<Option<F>>>)
      requires Valid()
      ensures id !in View() ==> r == Err(UserNotFound)
      ensures id in View() && View()[id].role != Client ==> r == Err(RoleNotAccepted)
      ensures id in View() && View()[id].role == Client ==> r == Resolve(fountains, View()[id].favourites)
    {
      if id !in users {
        return Err(UserNotFound);
      }
      var user := users[id];
      if user.role != Client {
        return Err(RoleNotAccepted);
      }
      var ids := user.favourites;
      var found: seq<Option<F>> := [];
      var n := 0;
      while n < |ids|
        invariant 0 <= n <= |ids|
        invariant Resolve(fountains, ids[..n]) == Ok(found)
      {
        var fetched := fountains(ids[n]);
        assert ids[..n + 1][..n] == ids[..n];
        if fetched.Failed? {
          return Err(SourceFailure);
        }
        found := found + [fetched.body];
        n := n + 1;
      }
      assert ids[..n] == ids;
      r := Ok(found);
    }

    /** addFavourite: a Client gets the fountain id appended to its list (no
        duplicate check), then the fountain is looked up; a failed lookup still
        leaves the id added. */
    method AddFavourite<F>(id: int, fountain: int, fountains: int -> Fetch<F>) returns (r: Result<Option<F>>)
      requires Valid()
      modifies Objects()
      ensures Valid() && users == old(users)
      ensures id !in old(View()) ==> r == Err(UserNotFound) && View() == old(View())
      ensures id in old(View()) && old(View())[id].role != Client ==> r == Err(RoleNotAccepted) && View() == old(View())
      ensures id in old(View()) && old(View())[id].role == Client ==>
                && View() == old(View())[id := old(View())[id].(favourites := old(View())[id].favourites + [fountain])]
                && r == AsResult(fountains(fountain))
    {
      if id !in users {
        return Err(UserNotFound);
      }
      var user := users[id];
      if user.role != Client {
        return Err(RoleNotAccepted);
      }
      ghost var before := View();
      user.favourites := user.favourites + [fountain];
      assert forall k :: k in users && k != id ==> users[k] != user;
      assert View() == before[id := before[id].(favourites := before[id].favourites + [fountain])];
      r := AsResult(fountains(fountain));
    }

    /** removeFavourite: a Client loses the first occurrence of the id (none if
        absent, without error), then the fountain is looked up. */
    method RemoveFavourite<F>(id: int, fountain: int, fountains: int -> Fetch<F>) returns (r: Result<Option<F>>)
      requires Valid()
      modifies Objects()
      ensures Valid() && users == old(users)
      ensures id !in old(View()) ==> r == Err(UserNotFound) && View() == old(View())
      ensures id in old(View()) && old(View())[id].role != Client ==> r == Err(RoleNotAccepted) && View() == old(View())
      ensures id in old(View()) && old(View())[id].role == Client ==>
                && View() == old(View())[id := old(View())[id].(favourites := RemoveFirst(old(View())[id].favourites, fountain))]
                && r == AsResult(fountains(fountain))
    {
      if id !in users {
        return Err(UserNotFound);
      }
      var user := users[id];
      if user.role != Client {
        return Err(RoleNotAccepted);
      }
      ghost var before := View();
      user.favourites := RemoveFirst(user.favourites, fountain);
      assert forall k :: k in users && k != id ==> users[k] != user;
      assert View() == before[id := before[id].(favourites := RemoveFirst(before[id].favourites, fountain))];
      r := AsResult(fountains(fountain));
    }

    /** getTesterWaterAnalysis: for a Tester, the analysis of every id stored in
        its FAVOURITES list (not its water-analysis list), in order. */
    method GetTesterWaterAnalysis<A>(id: int, analyses: int -> Fetch<A>) returns (r: Result<seq<Option<A>>>)
      requires Valid()
      ensures id !in View() ==> r == Err(UserNotFound)
      ensures id in View() && View()[id].role != Tester ==> r == Err(RoleNotAccepted)
      ensures id in View() && View()[id].role == Tester ==> r == Resolve(analyses, View()[id].favourites)
    {
      if id !in users {
        return Err(UserNotFound);
      }
      var user := users[id];
      if user.role != Tester {
        return Err(RoleNotAccepted);
      }
      var ids := user.favourites;
      var found: seq<Option<A>> := [];
      var n := 0;
      while n < |ids|
        invariant 0 <= n <= |ids|
        invariant Resolve(analyses, ids[..n]) == Ok(found)
      {
        var fetched := analyses(ids[n]);
        assert ids[..n + 1][..n] == ids[..n];
        if fetched.Failed? {
          return Err(SourceFailure);
        }
        found := found + [fetched.body];
        n := n + 1;
      }
      assert ids[..n] == ids;
      r := Ok(found);
    }

    /** addWaterAnalysis: a Tester gets the analysis id appended to its
        water-analysis list; its favourites are not touched. */
    method AddWaterAnalysis<A>(id: int, analysis: int, analyses: int -> Fetch<A>) returns (r: Result<Option<A>>)
      requires Valid()
      modifies Objects()
      ensures Valid() && users == old(users)
      ensures id !in old(View()) ==> r == Err(UserNotFound) && View() == old(View())
      ensures id in old(View()) && old(View())[id].role != Tester ==> r == Err(RoleNotAccepted) && View() == old(View())
      ensures id in old(View()) && old(View())[id].role == Tester ==>
                && View() == old(View())[id := old(View())[id].(waterAnalysis := old(View())[id].waterAnalysis + [analysis])]
                && r == AsResult(analyses(analysis))
    {
      if id !in users {
        return Err(UserNotFound);
      }
      var user := users[id];
      if user.role != Tester {
        return Err(RoleNotAccepted);
      }
      ghost var before := View();
      user.waterAnalysis := user.waterAnalysis + [analysis];
      assert forall k :: k in users && k != id ==> users[k] != user;
      assert View() == before[id := before[id].(waterAnalysis := before[id].waterAnalysis + [analysis])];
      r := AsResult(analyses(analysis));
    }

    /** The stored users with the given role, in repository order, together
        with their ids. */
    method CollectByRole(role: Role) returns (matching: seq<User>, ids: seq<int>)
      requires forall k :: k in order ==> k in users
      ensures ids == WithRole(order, View(), role)
      ensures |matching| == |ids|
      ensures forall k :: 0 <= k < |ids| ==> ids[k] in users && matching[k] == users[ids[k]]
    {
      matching, ids := [], [];
      var n := 0;
      while n < |order|
        invariant 0 <= n <= |order|
        invariant ids == WithRole(order[..n], View(), role)
        invariant |matching| == |ids|
        invariant forall k :: 0 <= k < |ids| ==> ids[k] in users && matching[k] == users[ids[k]]
      {
        var id := order[n];
        assert id in order;
        var u := users[id];
        RecordAt(users, id);
        assert order[..n + 1] == order[..n] + [id];
        WithRoleSnoc(order[..n], id, View(), role);
        if u.role == role {
          matching := matching + [u];
          ids := ids + [id];
        }
        n := n + 1;
      }
      assert order[..n] == order;
    }

    /** getAllUsersByRole: fails on an empty repository and on an empty answer;
        otherwise the stored users with that role, in repository order. */
    method GetAllUsersByRole(role: Role) returns (r: Result<seq<User>>)
      requires Valid()
      ensures order == [] ==> r == Err(UserNotFound)
      ensures order != [] && WithRole(order, View(), role) == [] ==> r == Err(UserNotFound)
      ensures order != [] && WithRole(order, View(), role) != [] ==>
                && r.Ok?
                && |r.value| == |WithRole(order, View(), role)|
                && forall k :: 0 <= k < |r.value| ==> WithRole(order, View(), role)[k] in users && r.value[k] == users[WithRole(order, View(), role)[k]]
    {
      if order == [] {
        return Err(UserNotFound);
      }
      var matching, ids := CollectByRole(role);
      if matching == [] {
        return Err(UserNotFound);
      }
      r := Ok(matching);
    }

    /** getXFavourites: user existence first, then a positive limit, then the
        Client role; the fountains of the first min(i, |favourites|) ids, with
        no more than `i` lookups. */
    method GetXFavourites<F>(id: int, i: int, fountains: int -> Fetch<F>) returns (r: Result<seq<Option<F>>>, ghost calls: nat)
      requires Valid()
      ensures id in View() && i > 0 && View()[id].role == Client ==> calls <= Min(i, |View()[id].favourites|)
      ensures !(id in View() && i > 0 && View()[id].role == Client) ==> calls == 0
      ensures id !in View() ==> r == Err(UserNotFound)
      ensures id in View() && i <= 0 ==> r == Err(ParamInvalid)
      ensures id in View() && i > 0 && View()[id].role != Client ==> r == Err(RoleNotAccepted)
      ensures id in View() && i > 0 && View()[id].role == Client ==>
                r == Resolve(fountains, View()[id].favourites[..Min(i, |View()[id].favourites|)])
    {
      calls := 0;
      if id !in users {
        return Err(UserNotFound), 0;
      }
      var user := users[id];
      if i <= 0 {
        return Err(ParamInvalid), 0;
      }
      if user.role != Client {
        return Err(RoleNotAccepted), 0;
      }
      var ids := user.favourites;
      var found: seq<Option<F>> := [];
      var j := 0;
      while j < |ids|
        invariant 0 <= j <= |ids| && j < i
        invariant calls == j
        invariant Resolve(fountains, ids[..j]) == Ok(found)
      {
        var fetched := fountains(ids[j]);
        calls := calls + 1;
        assert ids[..j + 1][..j] == ids[..j];
        if fetched.Failed? {
          assert ids[..Min(i, |ids|)][..j + 1] == ids[..j + 1];
          return Err(SourceFailure), calls;
        }
        found := found + [fetched.body];
        j := j + 1;
        if j == i {
          break;
        }
      }
      assert ids[..j] == ids[..Min(i, |ids|)];
      r := Ok(found);
    }

    /** isFountainFavorite: after the user and role checks the fountain is looked
        up, and a lookup that FINDS the fountain throws ParamException ("Fountain
        does not exist."); only a null body lets the membership answer through. */
    function IsFountainFavorite<F>(idUser: int, idFountain: int, fountains: int -> Fetch<F>): (r: Result<bool>)
      reads this, Objects()
      ensures idUser !in View() ==> r == Err(UserNotFound)
      ensures idUser in View() && View()[idUser].role != Client ==> r == Err(RoleNotAccepted)
      ensures idUser in View() && View()[idUser].role == Client ==>
                match fountains(idFountain)
                case Failed => r == Err(SourceFailure)
                case Answered(Some(_)) => r == Err(ParamInvalid)
                case Answered(None) => r == Ok(idFountain in View()[idUser].favourites)
    {
      if idUser !in users then Err(UserNotFound)
      else if users[idUser].role != Client then Err(RoleNotAccepted)
      else match fountains(idFountain)
        case Failed => Err(SourceFailure)
        case Answered(Some(_)) => Err(ParamInvalid)
        case Answered(None) => Ok(idFountain in users[idUser].favourites)
    }
  }
}

/** A client of the service: a fresh Client user adds a fountain, asks whether
    it is a favourite, and removes it again. The membership answer only comes
    back when the fountain lookup has a null body; a lookup that finds the
    fountain makes the question fail. */
module UserScenarios {
  import opened Common
  import opened Users
  import opened Lists
  import opened UserServices

  /** For a client that does not have the fountain yet, with one fountain
      source that answers the lookup with a null body: addFavourite and
      removeFavourite pass that body through, the fountain is reported as a
      favourite in between and not afterwards, and the repository ends up
      holding what it held before. */
  method FavouriteRoundTrip<F>(service: UserService, id: int, fountain: int, fountains: int -> Fetch<F>)
      returns (during: Result<bool>, after: Result<bool>)
    requires service.Valid() && id in service.View() && service.View()[id].role == Client
    requires fountain !in service.View()[id].favourites
    requires fountains(fountain) == Answered(None)
    modifies service.Objects()
    ensures during == Ok(true) && after == Ok(false)
    ensures service.Valid() && service.users == old(service.users) && service.View() == old(service.View())
  {
    ghost var before := service.View();

    var added := service.AddFavourite(id, fountain, fountains);
    assert added == Ok(None);
    assert service.View()[id] == before[id].(favourites := before[id].favourites + [fountain]);

    during := service.IsFountainFavorite(id, fountain, fountains);

    var removed := service.RemoveFavourite(id, fountain, fountains);
    AppendThenRemoveFirst(before[id].favourites, fountain);
    assert service.View()[id] == before[id];
    assert service.View() == before;
    after := service.IsFountainFavorite(id, fountain, fountains);
  }

  /** With a fountain source that finds the fountain, the favourite is still
      added, but the membership question is refused with ParamInvalid. */
  method FoundFountainRefused<F>(service: UserService, id: int, fountain: int, body: F, fountains: int -> Fetch<F>)
      returns (added: Result<Option<F>>, asked: Result<bool>)
    requires service.Valid() && id in service.View() && service.View()[id].role == Client
    requires fountains(fountain) == Answered(Some(body))
    modifies service.Objects()
    ensures added == Ok(Some(body)) && asked == Err(ParamInvalid)
    ensures service.Valid() && fountain in service.View()[id].favourites
  {
    ghost var before := service.View();
    added := service.AddFavourite(id, fountain, fountains);
    assert service.View()[id].favourites == before[id].favourites + [fountain];
    asked := service.IsFountainFavorite(id, fountain, fountains);
  }

  /** Passing a stored user back to updateUser unchanged is refused: its own
      email already counts as taken, so nothing changes. */
  method UnchangedUserRefused(service: UserService, id: int, saveOk: bool) returns (r: Result<User>)
    requires service.Valid() && id in service.users
    modifies service.Objects()
    ensures r == Err(ParamInvalid)
    ensures service.Valid() && service.View() == old(service.View())
  {
    var stored := service.users[id];
    RecordAt(service.users, id);
    OwnEmailTaken(service.View(), id);
    r := service.UpdateUser(id, stored, saveOk);
  }

  /** A user created from the no-argument constructor is stored as a client
      without favourites, so the round trip above applies to it. */
  method NewUserRoundTrip(fountain: int) returns (created: Result<User>, during: Result<bool>, after: Result<bool>)
    ensures created.Ok? && created.value.role == Client && created.value.favourites == []
    ensures during == Ok(true) && after == Ok(false)
  {
    var service := new UserService();
    var user := new User.Empty();
    var id := service.nextId;
    created := service.CreateUser(user, true);
    assert created.Ok? && id in service.View();
    assert service.View()[id].role == Client && service.View()[id].favourites == [];
    var nullBody: int -> Fetch<int> := (x: int) => Answered(None);
    during, after := FavouriteRoundTrip(service, id, fountain, nullBody);
  }
}
