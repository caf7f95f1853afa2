/** Concrete runs of the model on the two stub entity types of the domain
    tests: a type named "DomainEntityStub`1" (and its twin
    "DomainEntityStub2`1") with the string properties Property1, which is the
    only signature member, and Property2. Each method pins down the outcome
    the corresponding test expects, whatever the runtime's hash functions
    are. */
module EntityScenarios {
  import opened Primitives
  import opened IdentityComparer
  import opened EntitySpec
  import opened DomainEntities
  import opened ListOps
  import opened Accounts

  const StubType := EntityType(1, "DomainEntityStub`1", ["Property1"])
  const Stub2Type := EntityType(2, "DomainEntityStub2`1", ["Property1"])

  function StubValues(property1: string, property2: string): Values {
    map["Property1" := Some(Text(property1)), "Property2" := Some(Text(property2))]
  }

  /** The segment a stub's signature renders to. */
  lemma StubRender(property1: string, property2: string)
    ensures Render(["Property1"], StubValues(property1, property2)) == "Property1:" + property1 + ", "
  {
    assert ["Property1"][..0] == [];
  }

  /** ToString of an entity whose id is 0. */
  lemma TransientText(rt: Runtime, t: EntityType, values: Values, segment: string)
    ensures EntityText(rt, EntityState(t, IntId(0), values), segment) == t.name + ": [Id:0] (" + segment + "IsTransient:True)"
  {
    assert IntText(0) == "0";
  }

  /** The text of a transient stub whose segment shows Property1. */
  lemma StubText(rt: Runtime, values: Values, property1: string)
    ensures EntityText(rt, EntityState(StubType, IntId(0), values), "Property1:" + property1 + ", ")
            == "DomainEntityStub`1: [Id:0] (Property1:" + property1 + ", IsTransient:True)"
  {
    TransientText(rt, StubType, values, "Property1:" + property1 + ", ");
    var x := "DomainEntityStub`1" + ": [Id:0] (";
    assert x + (("Property1:" + property1) + ", ") + "IsTransient:True)"
        == (x + "Property1:") + property1 + (", " + "IsTransient:True)");
    assert "DomainEntityStub`1" + ": [Id:0] (" + "Property1:" == "DomainEntityStub`1: [Id:0] (Property1:";
    assert ", " + "IsTransient:True)" == ", IsTransient:True)";
  }

  // The expected texts of the domain tests, spelled out, each literal
  // equality checked on its own.

  lemma EmptyGoldenText()
    ensures "DomainEntityStub`1: [Id:0] (Property1:" + "" + ", IsTransient:True)"
            == "DomainEntityStub`1: [Id:0] (Property1:, IsTransient:True)"
  {
  }

  lemma InitialGoldenText()
    ensures "DomainEntityStub`1: [Id:0] (Property1:" + "Initial" + ", IsTransient:True)"
            == "DomainEntityStub`1: [Id:0] (Property1:Initial, IsTransient:True)"
  {
  }

  lemma ChangedGoldenText()
    ensures "DomainEntityStub`1: [Id:0] (Property1:" + "Changed" + ", IsTransient:True)"
            == "DomainEntityStub`1: [Id:0] (Property1:Changed, IsTransient:True)"
  {
  }

  /** The first ToString of a stub renders its current Property1 and takes
      the snapshot. */
  lemma FirstStubSegment(t: EntityType, property1: string, property2: string)
    requires t.signature == ["Property1"]
    ensures var segment := SignatureSegment(InitialCaches, t.signature, StubValues(property1, property2));
            && segment.0 == Ok("Property1:" + property1 + ", ")
            && segment.1.snapshot.Some?
            && "Property1" in segment.1.snapshot.value
            && segment.1.snapshot.value["Property1"] == property1
  {
    StubRender(property1, property2);
  }

  /** A later ToString, with the cached text matching the snapshot, shows the
      current Property1: rebuilt after a drift, cached otherwise. */
  lemma LaterStubSegment(t: EntityType, c: Caches, property1: string, property2: string)
    requires t.signature == ["Property1"]
    requires c.snapshot.Some? && "Property1" in c.snapshot.value
    requires c.text == "Property1:" + c.snapshot.value["Property1"] + ", "
    ensures SignatureSegment(c, t.signature, StubValues(property1, property2)).0 == Ok("Property1:" + property1 + ", ")
  {
    StubRender(property1, property2);
    var sig, values := ["Property1"], StubValues(property1, property2);
    assert sig[1..] == [];
    if c.snapshot.value["Property1"] != property1 {
      assert ScanSignature(sig, c.snapshot.value, values) == Ok(true);
      RebuiltAfterDrift(c, sig, values);
    } else {
      assert ScanSignature(sig, c.snapshot.value, values) == Ok(false);
      CachedWithoutDrift(c, sig, values);
    }
  }

  /** A stub created with the default constructor and its two properties set. */
  method NewStub(t: EntityType, index: SignatureIndex, property1: string, property2: string, identityHash: bv32)
    returns (e: Entity)
    requires t.signature == ["Property1"]
    ensures fresh(e) && e.Valid()
    ensures e.typ == t && e.index == index && e.id == IntId(0) && e.keyKind == IntKind
    ensures e.values == StubValues(property1, property2) && e.CacheState() == InitialCaches
  {
    e := new Entity(t, IntKind, index, StubValues(property1, property2), identityHash);
  }

  /** A stub created with the explicit-id constructor; both properties "". */
  method NewStubWithId(t: EntityType, index: SignatureIndex, n: int32, identityHash: bv32)
    returns (e: Entity)
    requires t.signature == ["Property1"]
    ensures fresh(e) && e.Valid()
    ensures e.typ == t && e.index == index && e.id == IntId(n) && e.keyKind == IntKind
    ensures e.values == StubValues("", "") && e.CacheState() == InitialCaches
  {
    e := new Entity.WithId(t, index, StubValues("", ""), identityHash, IntId(n));
  }

  /** The stub's signature members are exactly [Property1]. */
  method StubSignatureMembers() returns (properties: seq<string>)
    ensures properties == ["Property1"]
  {
    var index := new SignatureIndex();
    var e := NewStub(StubType, index, "", "", 0);
    properties := e.GetSignatureProperties();
  }

  /** A fresh stub is transient, and one built with id 1 is not. */
  method TransienceOfNewStubs() returns (defaultTransient: bool, withIdTransient: bool)
    ensures defaultTransient && !withIdTransient
  {
    var index := new SignatureIndex();
    var a := NewStub(StubType, index, "", "", 0);
    var b := NewStubWithId(StubType, index, 1, 0);
    defaultTransient := a.IsTransient();
    withIdTransient := b.IsTransient();
  }

  /** The text of a stub whose properties are empty strings. */
  method EmptyPropertyText(rt: Runtime) returns (s: Outcome<string>)
    ensures s == Ok("DomainEntityStub`1: [Id:0] (Property1:, IsTransient:True)")
  {
    var index := new SignatureIndex();
    var e := NewStub(StubType, index, "", "", 0);
    s := e.ToString(rt);
    FirstStubSegment(StubType, "", "");
    StubText(rt, e.values, "");
    EmptyGoldenText();
  }

  /** Changing Property1 changes the text. */
  method SignatureFollowsSignatureChanges(rt: Runtime) returns (initial: Outcome<string>, changed: Outcome<string>)
    ensures initial == Ok("DomainEntityStub`1: [Id:0] (Property1:Initial, IsTransient:True)")
    ensures changed == Ok("DomainEntityStub`1: [Id:0] (Property1:Changed, IsTransient:True)")
  {
    var index := new SignatureIndex();
    var e := NewStub(StubType, index, "Initial", "Initial", 0);
    initial := e.ToString(rt);
    FirstStubSegment(StubType, "Initial", "Initial");
    StubText(rt, e.values, "Initial");
    e.SetValue("Property1", Some(Text("Changed")));
    assert e.values == StubValues("Changed", "Initial");
    LaterStubSegment(StubType, e.CacheState(), "Changed", "Initial");
    changed := e.ToString(rt);
    StubText(rt, e.values, "Changed");
    InitialGoldenText();
    ChangedGoldenText();
  }

  /** Changing Property2 leaves the text as it was. */
  method SignatureIgnoresOtherChanges(rt: Runtime) returns (initial: Outcome<string>, changed: Outcome<string>)
    ensures initial == changed == Ok("DomainEntityStub`1: [Id:0] (Property1:Initial, IsTransient:True)")
  {
    var index := new SignatureIndex();
    var e := NewStub(StubType, index, "Initial", "Initial", 0);
    initial := e.ToString(rt);
    FirstStubSegment(StubType, "Initial", "Initial");
    StubText(rt, e.values, "Initial");
    e.SetValue("Property2", Some(Text("Changed")));
    assert e.values == StubValues("Initial", "Changed");
    LaterStubSegment(StubType, e.CacheState(), "Initial", "Changed");
    changed := e.ToString(rt);
    StubText(rt, e.values, "Initial");
    InitialGoldenText();
  }

  /** Two persisted stubs with id 1 hash alike, whatever their reference
      hashes. */
  method PersistentHashesMatch(rt: Runtime, identity1: bv32, identity2: bv32) returns (h1: Outcome<bv32>, h2: Outcome<bv32>)
    ensures h1 == h2 && h1.Ok?
  {
    var index := new SignatureIndex();
    var e1 := NewStubWithId(StubType, index, 1, identity1);
    var e2 := NewStubWithId(StubType, index, 1, identity2);
    h1 := e1.GetHashCode(rt);
    h2 := e2.GetHashCode(rt);
  }

  /** Two transient stubs with Property1 = "A Value" hash alike. */
  method TransientHashesMatch(rt: Runtime, identity1: bv32, identity2: bv32) returns (h1: Outcome<bv32>, h2: Outcome<bv32>)
    ensures h1 == h2 && h1.Ok?
  {
    var index := new SignatureIndex();
    var e1 := NewStub(StubType, index, "A Value", "", identity1);
    var e2 := NewStub(StubType, index, "A Value", "", identity2);
    h1 := e1.GetHashCode(rt);
    h2 := e2.GetHashCode(rt);
  }

  /** The Equals outcomes of the domain tests for persisted stubs. */
  method PersistentEqualityOutcomes() returns (sameId: bool, differentIds: bool, otherTypeSameId: bool)
    ensures sameId && !differentIds && !otherTypeSameId
  {
    var index := new SignatureIndex();
    var p1 := NewStubWithId(StubType, index, 1, 0);
    var p1b := NewStubWithId(StubType, index, 1, 0);
    var p2 := NewStubWithId(StubType, index, 2, 0);
    var q1 := NewStubWithId(Stub2Type, index, 1, 0);
    sameId := p1.Equals(EntityRef(p1b));
    differentIds := p1.Equals(EntityRef(p2));
    otherTypeSameId := p1.Equals(EntityRef(q1));
  }

  /** The Equals outcomes of the domain tests for transient stubs. */
  method TransientEqualityOutcomes() returns (sameSignature: bool, differentSignatures: bool, otherType: bool)
    ensures sameSignature && !differentSignatures && !otherType
  {
    var index := new SignatureIndex();
    var t := NewStub(StubType, index, "Property1", "Property2", 0);
    var tb := NewStub(StubType, index, "Property1", "Property2", 0);
    var td := NewStub(StubType, index, "Different Property1", "Property2", 0);
    var u := NewStub(Stub2Type, index, "Property1", "Property2", 0);
    sameSignature := t.Equals(EntityRef(tb));
    SignatureEquality(t.State(), td.State());
    assert ValueOf(t.values, "Property1") != ValueOf(td.values, "Property1");
    differentSignatures := t.Equals(EntityRef(td));
    otherType := t.Equals(EntityRef(u));
  }

  /** Linking a new user and a new group and unlinking them again leaves
      both lists empty. */
  method LinkThenUnlink() returns (groups: seq<UserGroup>, members: seq<User>)
    ensures groups == [] && members == []
  {
    var u := new User();
    var g := new UserGroup();
    u.AddUserGroup(g);
    g.AddUser(u);
    assert u.userGroups == [g] && g.users == [u];
    u.RemoveUserGroup(g);
    groups, members := u.userGroups, g.users;
  }

  /** Linking from both sides leaves the lists as linking from one side:
      the second helper finds both elements present and appends nothing. */
  method LinkFromBothSides(u: User, g: UserGroup)
    modifies u`userGroups, g`users
    ensures u.userGroups == Added(old(u.userGroups), g)
    ensures g.users == Added(old(g.users), u)
  {
    u.AddUserGroup(g);
    g.AddUser(u);
    AddedIdempotent(old(u.userGroups), g);
    AddedIdempotent(old(g.users), u);
  }

  /** Adding a pair that is not yet linked and removing it again restores
      both lists, whichever class's helpers are used. */
  method AddThenRemove(u: User, g: UserGroup)
    requires g !in u.userGroups && u !in g.users
    modifies u`userGroups, g`users
    ensures u.userGroups == old(u.userGroups) && g.users == old(g.users)
  {
    g.AddUser(u);
    RemovedAfterAdded(old(u.userGroups), g);
    RemovedAfterAdded(old(g.users), u);
    u.RemoveUserGroup(g);
  }

  /** The first username becomes the friendly name; a later one does not
      replace it. */
  method UsernameThenRename() returns (friendly: NullableString, username: NullableString)
    ensures friendly == Some("DOMAIN\\first") && username == Some("DOMAIN\\second")
  {
    var u := new User();
    u.SetUsername(Some("DOMAIN\\first"));
    u.SetUsername(Some("DOMAIN\\second"));
    friendly, username := u.friendlyName, u.username;
  }
}
