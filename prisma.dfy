/** The credential store: the user and role tables the auth code reads and
    writes through Prisma, with the table constraints a relational store
    enforces (unique id, username and email; connected roles must exist). */
module Prisma {
  import opened Errors
  import opened Bcrypt
  import opened Jwt

  /** A user row. `refreshToken` is None after logout, or holds the digest
      of the refresh token of the single live session. */
  datatype User = User(
    id: UserId,
    username: string,
    email: string,
    password: Digest<string>,
    refreshToken: Option<Digest<Token>>,
    displayName: Option<string>,
    bio: Option<string>,
    avatar: Option<string>,
    roles: set<string>)

  /** The contents of the two tables. */
  datatype Db = Db(users: map<UserId, User>, roles: set<string>)

  /** Rows are keyed by their id; usernames and emails are unique. */
  ghost predicate Consistent(users: map<UserId, User>)
  {
    && (forall id | id in users :: users[id].id == id)
    && (forall a, b | a in users && b in users && a != b ::
          users[a].username != users[b].username && users[a].email != users[b].email)
  }

  /** The constraints of both tables, including that every role a user is
      connected to exists. */
  ghost predicate WellFormed(db: Db)
  {
    Consistent(db.users) && forall id | id in db.users :: db.users[id].roles <= db.roles
  }

  predicate UsernameTaken(users: map<UserId, User>, username: string)
  {
    exists id | id in users :: users[id].username == username
  }

  predicate EmailTaken(users: map<UserId, User>, email: string)
  {
    exists id | id in users :: users[id].email == email
  }

  /** What user.create needs to succeed: no unique column taken and every
      connected role present. */
  predicate CanCreate(db: Db, u: User)
  {
    u.id !in db.users && !UsernameTaken(db.users, u.username)
    && !EmailTaken(db.users, u.email) && u.roles <= db.roles
  }

  /** user.findUnique({where: {username}}). */
  function FindByUsername(users: map<UserId, User>, username: string): (r: Option<User>)
    requires Consistent(users)
    ensures r.Some? <==> UsernameTaken(users, username)
    ensures r.Some? ==> r.value.id in users && users[r.value.id] == r.value
                        && r.value.username == username
  {
    if UsernameTaken(users, username) then
      var id :| id in users && users[id].username == username;
      Some(users[id])
    else
      None
  }

  /** The user and role tables as a mutable object; each method is one
      Prisma call. */
  class UserStore {
    var users: map<UserId, User>
    var roles: set<string>

    function Snapshot(): Db
      reads this
    {
      Db(users, roles)
    }

    ghost predicate Valid()
      reads this
    {
      WellFormed(Snapshot())
    }

    constructor Empty()
      ensures Valid() && users == map[] && roles == {}
    {
      users := map[];
      roles := {};
    }

    /** role.upsert({where: {name}, update: {}, create: {name}}): creates
        the role if missing and leaves an existing one as it is. */
    method UpsertRole(name: string)
      requires Valid()
      modifies this
      ensures Valid()
      ensures roles == old(roles) + {name} && users == old(users)
    {
      roles := roles + {name};
    }

    /** user.create({data: u}): fails, writing nothing, when a unique column
        is already taken or a connected role does not exist. */
    method CreateUser(u: User) returns (r: Result<User>)
      requires Valid()
      modifies this
      ensures Valid() && roles == old(roles)
      ensures r.Success? <==> CanCreate(old(Snapshot()), u)
      ensures r.Success? ==> r.value == u && users == old(users)[u.id := u]
      ensures r.Failure? ==> r.error == PrismaError && users == old(users)
    {
      if !CanCreate(Snapshot(), u) {
        return Failure(PrismaError);
      }
      users := users[u.id := u];
      r := Success(u);
    }

    /** user.update({where: {id}, data: {refreshToken: digest}}): fails,
        writing nothing, when no row has that id. */
    method UpdateRefreshToken(id: UserId, digest: Option<Digest<Token>>) returns (r: Result<User>)
      requires Valid()
      modifies this
      ensures Valid() && roles == old(roles)
      ensures r.Success? <==> id in old(users)
      ensures r.Success? ==> r.value == old(users)[id].(refreshToken := digest)
                             && users == old(users)[id := r.value]
      ensures r.Failure? ==> r.error == PrismaError && users == old(users)
    {
      if id !in users {
        return Failure(PrismaError);
      }
      var updated := users[id].(refreshToken := digest);
      users := users[id := updated];
      r := Success(updated);
    }
  }
}
