/** User and UserGroup: two entities joined by a many-to-many link that is
    stored on both sides, in User.UserGroups and in UserGroup.Users. The
    helpers on either class update both lists so that the two sides keep
    agreeing. Both classes live in one module because each refers to the
    other. */
module Accounts {
  import opened Primitives
  import opened ListOps

  /** The link as two tables: the groups each user lists and the users
      each group lists. They agree when a user lists a group exactly when
      that group lists the user, and no list holds an element twice. */
  predicate LinksAgree<U(==), G(==)>(groupsOf: map<U, seq<G>>, usersOf: map<G, seq<U>>) {
    && (forall u, g | u in groupsOf && g in usersOf :: g in groupsOf[u] <==> u in usersOf[g])
    && (forall u | u in groupsOf :: NoDuplicates(groupsOf[u]))
    && (forall g | g in usersOf :: NoDuplicates(usersOf[g]))
  }

  /** The tables after an add helper has linked u and g. */
  function Link<U(==), G(==)>(groupsOf: map<U, seq<G>>, usersOf: map<G, seq<U>>, u: U, g: G)
    : (r: (map<U, seq<G>>, map<G, seq<U>>))
    ensures r.0.Keys == groupsOf.Keys && r.1.Keys == usersOf.Keys
  {
    (if u in groupsOf then groupsOf[u := Added(groupsOf[u], g)] else groupsOf,
     if g in usersOf then usersOf[g := Added(usersOf[g], u)] else usersOf)
  }

  /** The tables after a remove helper has unlinked u and g. */
  function Unlink<U(==), G(==)>(groupsOf: map<U, seq<G>>, usersOf: map<G, seq<U>>, u: U, g: G)
    : (r: (map<U, seq<G>>, map<G, seq<U>>))
    ensures r.0.Keys == groupsOf.Keys && r.1.Keys == usersOf.Keys
  {
    (if u in groupsOf then groupsOf[u := Removed(groupsOf[u], g)] else groupsOf,
     if g in usersOf then usersOf[g := Removed(usersOf[g], u)] else usersOf)
  }

  /** Linking keeps the two tables in agreement and links the pair on both
      sides. */
  lemma {:induction false} LinkKeepsAgreement<U, G>(groupsOf: map<U, seq<G>>, usersOf: map<G, seq<U>>, u: U, g: G)
    requires LinksAgree(groupsOf, usersOf)
    ensures LinksAgree(Link(groupsOf, usersOf, u, g).0, Link(groupsOf, usersOf, u, g).1)
    ensures u in groupsOf ==> g in Link(groupsOf, usersOf, u, g).0[u]
    ensures g in usersOf ==> u in Link(groupsOf, usersOf, u, g).1[g]
  {
    if u in groupsOf {
      AddedPreservesNoDuplicates(groupsOf[u], g);
    }
    if g in usersOf {
      AddedPreservesNoDuplicates(usersOf[g], u);
    }
  }

  /** Unlinking keeps the two tables in agreement and leaves the pair
      unlinked on both sides. */
  lemma {:induction false} UnlinkKeepsAgreement<U, G>(groupsOf: map<U, seq<G>>, usersOf: map<G, seq<U>>, u: U, g: G)
    requires LinksAgree(groupsOf, usersOf)
    ensures LinksAgree(Unlink(groupsOf, usersOf, u, g).0, Unlink(groupsOf, usersOf, u, g).1)
    ensures u in groupsOf ==> g !in Unlink(groupsOf, usersOf, u, g).0[u]
    ensures g in usersOf ==> u !in Unlink(groupsOf, usersOf, u, g).1[g]
  {
    var r := Unlink(groupsOf, usersOf, u, g);
    if u in groupsOf {
      RemovedPreservesNoDuplicates(groupsOf[u], g);
      RemovedLeavesNone(groupsOf[u], g);
    }
    if g in usersOf {
      RemovedPreservesNoDuplicates(usersOf[g], u);
      RemovedLeavesNone(usersOf[g], u);
    }
    forall u', g' | u' in r.0 && g' in r.1
      ensures g' in r.0[u'] <==> u' in r.1[g']
    {
      if u' == u && g' != g {
        RemovedKeepsOthers(groupsOf[u], g, g');
      }
      if g' == g && u' != u {
        RemovedKeepsOthers(usersOf[g], u, u');
      }
    }
  }

  /** One table entry: appending x and removing it again restores it. */
  lemma RestoreEntry<K, V>(m: map<K, seq<V>>, k: K, x: V)
    requires k in m && x !in m[k]
    ensures m[k := Added(m[k], x)][k := Removed(Added(m[k], x), x)] == m
  {
    RemovedAfterAdded(m[k], x);
  }

  /** Adding and then removing a pair that was not linked gives both tables
      back as they were. */
  lemma UnlinkUndoesLink<U, G>(groupsOf: map<U, seq<G>>, usersOf: map<G, seq<U>>, u: U, g: G)
    requires u in groupsOf ==> g !in groupsOf[u]
    requires g in usersOf ==> u !in usersOf[g]
    ensures var linked := Link(groupsOf, usersOf, u, g);
            Unlink(linked.0, linked.1, u, g) == (groupsOf, usersOf)
  {
    if u in groupsOf {
      RestoreEntry(groupsOf, u, g);
    }
    if g in usersOf {
      RestoreEntry(usersOf, g, u);
    }
  }

  class User {
    /** Part of the business signature. */
    var username: NullableString
    var friendlyName: NullableString
    var emailAddress: NullableString
    var inActive: bool
    var deleted: bool
    var userGroups: seq<UserGroup>

    constructor ()
      ensures username == Some("") && friendlyName == Some("") && emailAddress == Some("")
      ensures !inActive && !deleted
      ensures userGroups == []
    {
      username := Some("");
      friendlyName := Some("");
      emailAddress := Some("");
      inActive := false;
      deleted := false;
      userGroups := [];
    }

    /** AddUserGroup: each side gains the other unless it already holds it,
        so the pair of lists becomes what Link says. */
    method AddUserGroup(userGroup: UserGroup)
      modifies this`userGroups, userGroup`users
      ensures userGroups == Added(old(userGroups), userGroup)
      ensures userGroup.users == Added(old(userGroup.users), this)
      ensures NoDuplicates(old(userGroups)) ==> NoDuplicates(userGroups)
      ensures NoDuplicates(old(userGroup.users)) ==> NoDuplicates(userGroup.users)
    {
      if this !in userGroup.users {
        userGroup.users := userGroup.users + [this];
      }
      if userGroup !in userGroups {
        userGroups := userGroups + [userGroup];
      }
      if NoDuplicates(old(userGroups)) {
        AddedPreservesNoDuplicates(old(userGroups), userGroup);
      }
      if NoDuplicates(old(userGroup.users)) {
        AddedPreservesNoDuplicates(old(userGroup.users), this);
      }
    }

    /** RemoveUserGroup: each side loses the first occurrence of the other,
        if it holds one, so the pair of lists becomes what Unlink says. */
    method RemoveUserGroup(userGroup: UserGroup)
      modifies this`userGroups, userGroup`users
      ensures userGroups == Removed(old(userGroups), userGroup)
      ensures userGroup.users == Removed(old(userGroup.users), this)
      ensures NoDuplicates(old(userGroups)) ==> userGroup !in userGroups
      ensures NoDuplicates(old(userGroup.users)) ==> this !in userGroup.users
    {
      if this in userGroup.users {
        userGroup.users := Removed(userGroup.users, this);
      }
      if userGroup in userGroups {
        userGroups := Removed(userGroups, userGroup);
      }
      if NoDuplicates(old(userGroups)) {
        RemovedLeavesNone(old(userGroups), userGroup);
      }
      if NoDuplicates(old(userGroup.users)) {
        RemovedLeavesNone(old(userGroup.users), this);
      }
    }

    /** SetUsername: FriendlyName follows the new username only while it is
        still null or empty. */
    method SetUsername(username: NullableString)
      modifies this`username, this`friendlyName
      ensures this.username == username
      ensures IsNullOrEmpty(old(friendlyName)) ==> friendlyName == username
      ensures !IsNullOrEmpty(old(friendlyName)) ==> friendlyName == old(friendlyName)
      ensures !IsNullOrEmpty(username) ==> !IsNullOrEmpty(friendlyName)
    {
      if IsNullOrEmpty(friendlyName) {
        friendlyName := username;
      }
      this.username := username;
    }
  }

  class UserGroup {
    /** Part of the business signature. */
    var name: NullableString
    var description: NullableString
    /** Part of the business signature. */
    var locked: bool
    var users: seq<User>

    constructor ()
      ensures name == Some("") && description == Some("") && !locked
      ensures users == []
    {
      name := Some("");
      description := Some("");
      locked := false;
      users := [];
    }

    /** AddUser: the mirror of User.AddUserGroup; both leave the same pair
        of lists. */
    method AddUser(user: User)
      modifies this`users, user`userGroups
      ensures user.userGroups == Added(old(user.userGroups), this)
      ensures users == Added(old(users), user)
      ensures NoDuplicates(old(user.userGroups)) ==> NoDuplicates(user.userGroups)
      ensures NoDuplicates(old(users)) ==> NoDuplicates(users)
    {
      if this !in user.userGroups {
        user.userGroups := user.userGroups + [this];
      }
      if user !in users {
        users := users + [user];
      }
      if NoDuplicates(old(user.userGroups)) {
        AddedPreservesNoDuplicates(old(user.userGroups), this);
      }
      if NoDuplicates(old(users)) {
        AddedPreservesNoDuplicates(old(users), user);
      }
    }

    /** RemoveUser: the mirror of User.RemoveUserGroup. */
    method RemoveUser(user: User)
      modifies this`users, user`userGroups
      ensures user.userGroups == Removed(old(user.userGroups), this)
      ensures users == Removed(old(users), user)
      ensures NoDuplicates(old(user.userGroups)) ==> this !in user.userGroups
      ensures NoDuplicates(old(users)) ==> user !in users
    {
      if this in user.userGroups {
        user.userGroups := Removed(user.userGroups, this);
      }
      if user in users {
        users := Removed(users, user);
      }
      if NoDuplicates(old(user.userGroups)) {
        RemovedLeavesNone(old(user.userGroups), this);
      }
      if NoDuplicates(old(users)) {
        RemovedLeavesNone(old(users), user);
      }
    }
  }
}
