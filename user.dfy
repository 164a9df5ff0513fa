/** The user entity: a mutable record with one setter per field. Its two id
    lists are handed out live, so callers change them in place; here that is
    an assignment to the field by the service that owns the user. */
module Users {
  import opened Common

  /** The three roles a user can have. */
  datatype Role = Manager | Tester | Client

  /** The value of every field of a user at one moment. */
  datatype UserRecord = UserRecord(
    id: int,
    name: Option<string>,
    email: Option<string>,
    password: Option<string>,
    role: Role,
    favourites: seq<int>,     // fountain ids, in insertion order
    waterAnalysis: seq<int>)  // water-analysis ids, in insertion order

  class User {
    var id: int
    var name: Option<string>
    var email: Option<string>
    var password: Option<string>
    var role: Role
    var favourites: seq<int>
    var waterAnalysis: seq<int>

    /** All fields of this user as one value. */
    function Record(): UserRecord
      reads this
    {
      UserRecord(id, name, email, password, role, favourites, waterAnalysis)
    }

    /** The four-argument constructor: the given details, an id not yet assigned
        (Java's default 0) and two empty lists. */
    constructor (name: Option<string>, email: Option<string>, password: Option<string>, role: Role)
      ensures Record() == UserRecord(0, name, email, password, role, [], [])
    {
      this.id := 0;
      this.name := name;
      this.email := email;
      this.password := password;
      this.role := role;
      this.favourites := [];
      this.waterAnalysis := [];
    }

    /** The no-argument constructor: the role is Client (its documentation says
        Manager), the strings are null and both lists are empty. */
    constructor Empty()
      ensures Record() == UserRecord(0, None, None, None, Client, [], [])
      ensures role != Manager
    {
      id := 0;
      name, email, password := None, None, None;
      role := Client;
      favourites := [];
      waterAnalysis := [];
    }

    method SetId(id: int)
      modifies this
      ensures Record() == old(Record()).(id := id)
    {
      this.id := id;
    }

    method SetName(name: Option<string>)
      modifies this
      ensures Record() == old(Record()).(name := name)
    {
      this.name := name;
    }

    method SetEmail(email: Option<string>)
      modifies this
      ensures Record() == old(Record()).(email := email)
    {
      this.email := email;
    }

    method SetPassword(password: Option<string>)
      modifies this
      ensures Record() == old(Record()).(password := password)
    {
      this.password := password;
    }

    method SetRole(role: Role)
      modifies this
      ensures Record() == old(Record()).(role := role)
    {
      this.role := role;
    }

    /** Replaces the fountain list; the analysis list is not touched. */
    method SetFavourites(favourites: seq<int>)
      modifies this
      ensures Record() == old(Record()).(favourites := favourites)
      ensures waterAnalysis == old(waterAnalysis)
    {
      this.favourites := favourites;
    }

    /** Replaces the analysis list; the fountain list is not touched. */
    method SetWaterAnalysis(waterAnalysis: seq<int>)
      modifies this
      ensures Record() == old(Record()).(waterAnalysis := waterAnalysis)
      ensures favourites == old(favourites)
    {
      this.waterAnalysis := waterAnalysis;
    }
  }
}
