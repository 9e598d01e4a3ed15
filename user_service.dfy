/** `UserService`: the registry of agents, keyed by WhatsApp id. */
module Users {
  import opened Wrappers
  import opened Domain

  /** The registry after `saveUser(jid, accountOfficer)`: a known id keeps its record. */
  function Registered(users: map<string, User>, jid: string, accountOfficer: string): (r: map<string, User>)
    ensures jid in r
    ensures jid in users ==> r == users
    ensures jid !in users ==> r[jid] == User(jid, accountOfficer, Member)
    ensures forall k :: k in users ==> k in r && r[k] == users[k]
    ensures forall k :: k in r ==> k in users || k == jid
  {
    if jid in users then users else users[jid := User(jid, accountOfficer, Member)]
  }

  /** Registering twice is registering once, whatever the second label says. */
  lemma RegisterIdempotent(users: map<string, User>, jid: string, first: string, second: string)
    ensures Registered(Registered(users, jid, first), jid, second) == Registered(users, jid, first)
  {
  }

  /** A stored account-officer label never changes. */
  lemma RegisterKeepsOfficer(users: map<string, User>, jid: string, k: string, officer: string)
    requires k in users
    ensures Registered(users, jid, officer)[k].accountOfficer == users[k].accountOfficer
  {
  }

  class UserService {
    var users: map<string, User>

    constructor (users: map<string, User>)
      ensures this.users == users
    {
      this.users := users;
    }

    /** `findByJid`. */
    method FindByJid(jid: string) returns (u: Option<User>)
      ensures u.Some? <==> jid in users
      ensures u.Some? ==> u.value == users[jid]
    {
      if jid in users {
        u := Some(users[jid]);
      } else {
        u := None;
      }
    }

    /** `saveUser`: find-or-create; the existing record is returned unchanged. */
    method SaveUser(jid: string, accountOfficer: string) returns (u: User)
      modifies this
      ensures users == Registered(old(users), jid, accountOfficer)
      ensures u == users[jid]
      ensures jid in old(users) ==> u == old(users)[jid]
    {
      if jid in users {
        u := users[jid];
      } else {
        u := User(jid, accountOfficer, Member);
        users := users[jid := u];
      }
    }
  }
}
