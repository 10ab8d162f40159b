/**
 * The `User` document and its embedded `Agent` (device) records, the schema
 * defaults that a freshly created user gets, the uniqueness the schema's
 * unique indexes impose, and the store that holds the users.
 */
module UserEntity {
  import opened Wrappers
  import opened ObjectIds

  /** A device the user has logged in from: its user-agent text, when it was added, and whether it is trusted. */
  datatype Agent = Agent(name: string, addedAt: int, isCurrent: bool)

  /**
   * A user document. `password` holds the hash, `verifiedAt` is null (None)
   * until the account e-mail is confirmed, and `agents` is a list: nothing
   * makes the names in it unique.
   */
  datatype User = User(
    firstName: string,
    lastName: string,
    email: string,
    password: string,
    roleId: ObjectId,
    phoneNumber: string,
    city: string,
    cinNumber: string,
    verifiedAt: Option<int>,
    agents: seq<Agent>)

  /** An agent entry built from its fields; an absent `isCurrent` takes the schema default, false. */
  function AgentRecord(name: string, isCurrent: Option<bool>, now: int): Agent {
    Agent(name, now, isCurrent.GetOr(false))
  }

  /** A user as `createUser` stores it: the schema defaults leave it unverified and without agents. */
  function NewUser(
    firstName: string, lastName: string, email: string, password: string,
    roleId: ObjectId, phoneNumber: string, city: string, cinNumber: string): User
  {
    User(firstName, lastName, email, password, roleId, phoneNumber, city, cinNumber, None, [])
  }

  /** The unique indexes on `email`, `phone_number` and `cin_number`. */
  ghost predicate UniqueIdentities(users: map<ObjectId, User>) {
    forall a, b | a in users && b in users && a != b ::
      && users[a].email != users[b].email
      && users[a].phoneNumber != users[b].phoneNumber
      && users[a].cinNumber != users[b].cinNumber
  }

  /** Stored ids are the ObjectIds the database generated, i.e. canonical ones. */
  ghost predicate CanonicalIds(users: map<ObjectId, User>) {
    forall id | id in users :: IsCanonical(id)
  }

  /** Agents are only ever pushed for a present, non-empty user-agent header. */
  predicate NamedAgents(user: User) {
    forall i | 0 <= i < |user.agents| :: user.agents[i].name != ""
  }

  ghost predicate AllAgentsNamed(users: map<ObjectId, User>) {
    forall id | id in users :: NamedAgents(users[id])
  }

  ghost predicate StoreInvariant(users: map<ObjectId, User>) {
    UniqueIdentities(users) && CanonicalIds(users) && AllAgentsNamed(users)
  }

  /** Replacing a user by a version with the same identities keeps the invariant. */
  lemma SameIdentitiesKeepInvariant(users: map<ObjectId, User>, id: ObjectId, u: User)
    requires StoreInvariant(users) && id in users
    requires u.email == users[id].email && u.phoneNumber == users[id].phoneNumber && u.cinNumber == users[id].cinNumber
    requires NamedAgents(u)
    ensures StoreInvariant(users[id := u])
  {
  }

  /** Adding a user under a fresh canonical id whose identities nobody shares keeps the invariant. */
  lemma DistinctUserKeepsInvariant(users: map<ObjectId, User>, id: ObjectId, u: User)
    requires StoreInvariant(users) && id !in users && IsCanonical(id)
    requires forall k | k in users :: users[k].email != u.email && users[k].phoneNumber != u.phoneNumber && users[k].cinNumber != u.cinNumber
    requires NamedAgents(u)
    ensures StoreInvariant(users[id := u])
  {
  }

  /** `findUserByEmail` finds someone. */
  predicate EmailRegistered(users: map<ObjectId, User>, email: string) {
    exists id | id in users :: users[id].email == email
  }

  /** The id `findUserByEmail` returns; the unique index makes it the only one. */
  ghost function UserIdWithEmail(users: map<ObjectId, User>, email: string): (id: ObjectId)
    requires EmailRegistered(users, email)
    ensures id in users && users[id].email == email
  {
    var id :| id in users && users[id].email == email; id
  }

  /** Under the unique index, a user's e-mail finds that user. */
  lemma EmailFindsUser(users: map<ObjectId, User>, id: ObjectId)
    requires UniqueIdentities(users) && id in users
    ensures EmailRegistered(users, users[id].email)
    ensures UserIdWithEmail(users, users[id].email) == id
  {
  }

  /** The user collection, shared by the services that read and save users. */
  class UserStore {
    var users: map<ObjectId, User>

    constructor ()
      ensures users == map[]
    {
      users := map[];
    }
  }
}
