/** DomainEntity<T> as an object: its identifier, row timestamp and three
    cached fields, the memo of signature members it is given, and the
    operations that read and refresh them. Each method is proved to do what
    the corresponding function of EntitySpec says. */
module DomainEntities {
  import opened Primitives
  import opened IdentityComparer
  import opened EntitySpec

  /** The static _signaturePropertiesDictionary. The code keeps one per
      closed DomainEntity<T> and per thread; here each entity holds a
      reference to one, and the entities that share it are those given the
      same object. */
  class SignatureIndex {
    var memo: Option<SignatureMemo>

    ghost predicate Valid()
      reads this
    {
      memo.Some? ==> MemoValid(memo.value)
    }

    /** The static constructor leaves the dictionary null. */
    constructor ()
      ensures Valid() && memo == None
    {
      memo := None;
    }
  }

  /** What `obj` may be when Equals(obj) is called. */
  datatype Reference = Null | NonEntity | EntityRef(entity: Entity)

  class Entity {
    /** GetType(), which is also GetTypeUnproxied() here. */
    const typ: EntityType
    /** The key type T. */
    const keyKind: IdKind
    const index: SignatureIndex
    /** base.GetHashCode(): the runtime's reference-based hash of this object. */
    const identityHash: bv32

    var id: Identifier
    var rowTimestamp: Option<seq<bv8>>
    var cachedHash: Option<bv32>
    var cachedSignatureText: string
    var signatureValues: Option<Snapshot>
    /** The current values of the properties the concrete type declares. */
    var values: Values

    ghost predicate Valid()
      reads this
    {
      && KindOf(id) == keyKind
      && Distinct(typ.signature)
    }

    function State(): EntityState
      reads this
    {
      EntityState(typ, id, values)
    }

    function CacheState(): Caches
      reads this
    {
      Caches(cachedHash, cachedSignatureText, signatureValues)
    }

    /** The instance method agrees with the state-level definition. */
    predicate IsTransient()
      reads this
      ensures IsTransient() <==> Transient(State())
    {
      IsNullOrDefault(id)
    }

    /** The default constructor: a default id, so the entity is transient. */
    constructor (typ: EntityType, keyKind: IdKind, index: SignatureIndex, values: Values, identityHash: bv32)
      requires Distinct(typ.signature)
      ensures Valid()
      ensures this.typ == typ && this.keyKind == keyKind && this.index == index
      ensures this.values == values && this.identityHash == identityHash
      ensures id == DefaultOf(keyKind) && rowTimestamp == None
      ensures CacheState() == InitialCaches
      ensures IsTransient()
    {
      this.typ := typ;
      this.keyKind := keyKind;
      this.index := index;
      this.identityHash := identityHash;
      this.values := values;
      id := DefaultOf(keyKind);
      rowTimestamp := None;
      cachedHash := None;
      signatureValues := None;
      cachedSignatureText := "";
    }

    /** The constructor that takes an explicit id (meant for tests). */
    constructor WithId(typ: EntityType, index: SignatureIndex, values: Values, identityHash: bv32, id: Identifier)
      requires Distinct(typ.signature)
      ensures Valid()
      ensures this.typ == typ && keyKind == KindOf(id) && this.index == index
      ensures this.values == values && this.identityHash == identityHash
      ensures this.id == id && rowTimestamp == None
      ensures CacheState() == InitialCaches
      ensures IsTransient() <==> IsNullOrDefault(id)
    {
      this.typ := typ;
      this.keyKind := KindOf(id);
      this.index := index;
      this.identityHash := identityHash;
      this.values := values;
      this.id := id;
      rowTimestamp := None;
      cachedHash := None;
      signatureValues := None;
      cachedSignatureText := "";
    }

    /** The protected Id setter, used by the persistence layer. It does not
        touch the caches. */
    method SetId(v: Identifier)
      requires Valid() && KindOf(v) == keyKind
      modifies this`id
      ensures Valid() && id == v
    {
      id := v;
    }

    /** The protected RowTimestamp setter. */
    method SetRowTimestamp(v: Option<seq<bv8>>)
      modifies this`rowTimestamp
      ensures rowTimestamp == v
    {
      rowTimestamp := v;
    }

    /** A property setter of the concrete type. */
    method SetValue(name: string, v: Option<Value>)
      requires Valid() && name in values
      modifies this`values
      ensures Valid() && values == old(values)[name := v]
    {
      values := values[name := v];
    }

    /** GetSignatureProperties: the memo entry for this type, stored on first
        access. */
    method GetSignatureProperties() returns (properties: seq<string>)
      requires index.Valid()
      modifies index
      ensures index.Valid()
      ensures properties == typ.signature
      ensures index.memo == Some(MemoLookup(old(index.memo), typ).1)
    {
      if index.memo.None? {
        index.memo := Some(map[]);
      }
      var m := index.memo.value;
      if typ in m {
        properties := m[typ];
        return;
      }
      // GetTypeSpecificSignatureProperties: the type's declared signature.
      properties := typ.signature;
      index.memo := Some(m[typ := properties]);
    }

    /** The foreach of HasSignatureChanged that fills a fresh
        _signatureValuesCache with each member's rendered value. It stops
        where `.ToString()` meets a null value and throws; `complete` says
        whether it got through. */
    method TakeSnapshot(properties: seq<string>) returns (snap: Snapshot, complete: bool)
      requires Distinct(properties)
      ensures var k := FirstNull(properties, values);
              snap == SnapshotOf(properties[..k], values) && (complete <==> k == |properties|)
    {
      ghost var k := FirstNull(properties, values);
      snap := map[];
      var i := 0;
      while i < |properties| && ValueOf(values, properties[i]).Some?
        invariant 0 <= i <= k
        invariant AllPresent(properties[..i], values)
        invariant snap == SnapshotOf(properties[..i], values)
      {
        SnapshotOfStep(properties, i, values);
        // Dictionary.Add never meets a key twice: property names are distinct.
        assert properties[i] !in snap;
        snap := snap[properties[i] := CurrentText(values, properties[i])];
        i := i + 1;
      }
      complete := i == |properties|;
    }

    /** HasSignatureChanged: a null member throws NullReferenceException on
        the first call (after the members before it are stored) and, on a
        later call, when the scan reaches it. */
    method HasSignatureChanged(properties: seq<string>) returns (changed: Outcome<bool>)
      requires Valid() && properties == typ.signature
      modifies this`signatureValues
      ensures Valid()
      ensures var check := CheckSignature(old(signatureValues), properties, values);
              changed == check.0 && signatureValues == Some(check.1)
    {
      if signatureValues.None? {
        var snap, complete := TakeSnapshot(properties);
        signatureValues := Some(snap);
        changed := if complete then Ok(false) else Thrown(NullReference);
        return;
      }
      changed := ScanSignature(properties, signatureValues.value, values);
    }

    /** The foreach/StringBuilder loop of SignaturePropertiesString. */
    method BuildSignatureText(properties: seq<string>) returns (sb: string)
      ensures sb == Render(properties, values)
    {
      sb := "";
      var i := 0;
      while i < |properties|
        invariant 0 <= i <= |properties|
        invariant sb == Render(properties[..i], values)
      {
        assert properties[..i + 1][..i] == properties[..i];
        var value := ValueOf(values, properties[i]);
        if value.Some? {
          sb := sb + properties[i] + ":" + ValueText(value.value) + ", ";
        }
        i := i + 1;
      }
      assert properties[..i] == properties;
    }

    /** SignaturePropertiesString. */
    method SignaturePropertiesString() returns (s: Outcome<string>)
      requires Valid() && index.Valid()
      modifies this`signatureValues, this`cachedSignatureText, index
      ensures Valid() && index.Valid()
      ensures index.memo == Some(MemoLookup(old(index.memo), typ).1)
      ensures (s, CacheState()) == SignatureSegment(old(CacheState()), typ.signature, values)
    {
      var properties := GetSignatureProperties();
      if |properties| == 0 {
        cachedSignatureText := "";
        return Ok(cachedSignatureText);
      }
      var changed := HasSignatureChanged(properties);
      if changed.Thrown? {
        return Thrown(changed.fault);
      }
      if cachedSignatureText == "" || changed.value {
        var sb := BuildSignatureText(properties);
        cachedSignatureText := sb;
      }
      s := Ok(cachedSignatureText);
    }

    /** ToString. */
    method ToString(rt: Runtime) returns (s: Outcome<string>)
      requires Valid() && index.Valid()
      modifies this`signatureValues, this`cachedSignatureText, index
      ensures Valid() && index.Valid()
      ensures index.memo == Some(MemoLookup(old(index.memo), typ).1)
      ensures var segment := SignatureSegment(old(CacheState()), typ.signature, values);
              && s == (if segment.0.Ok? then Ok(EntityText(rt, State(), segment.0.value)) else Thrown(segment.0.fault))
              && CacheState() == segment.1
    {
      var segment := SignaturePropertiesString();
      if segment.Thrown? {
        return Thrown(segment.fault);
      }
      s := Ok(typ.name + ": [Id:" + IdText(rt, id) + "] (" + segment.value + "IsTransient:" + BoolText(IsTransient()) + ")");
    }

    /** GetHashCode. */
    method GetHashCode(rt: Runtime) returns (h: Outcome<bv32>)
      requires Valid() && index.Valid()
      modifies this`cachedHash, this`signatureValues, index
      ensures Valid() && index.Valid()
      ensures index.memo == if IsTransient() then Some(MemoLookup(old(index.memo), typ).1) else old(index.memo)
      ensures (h, CacheState()) == HashStep(old(CacheState()), rt, State(), identityHash)
    {
      if IsTransient() {
        var properties := GetSignatureProperties();
        if cachedHash.Some? {
          var changed := HasSignatureChanged(properties);
          if changed.Thrown? {
            return Thrown(changed.fault);
          }
          if !changed.value {
            return Ok(cachedHash.value);
          }
        }
        var folded := HashFold(rt.valueHash, rt.typeHash(typ), PresentValues(properties, values));
        h := Ok(if |properties| > 0 then folded else identityHash);
        return;
      }
      if cachedHash.Some? {
        return Ok(cachedHash.value);
      }
      cachedHash := Some(Combine(rt.typeHash(typ), rt.idHash(id)));
      h := Ok(cachedHash.value);
    }

    /** `obj as DomainEntity<T>`: the argument itself when it is an entity
        with the same key type, null otherwise. */
    function Cast(obj: Reference): (compareTo: Entity?)
      ensures compareTo != null <==> obj.EntityRef? && obj.entity.keyKind == keyKind
      ensures compareTo != null ==> compareTo == obj.entity
    {
      if obj.EntityRef? && obj.entity.keyKind == keyKind then obj.entity else null
    }

    /** Whether Equals(obj) gets as far as comparing business signatures,
        which is when it consults the memo. */
    ghost predicate ComparesSignatures(compareTo: Entity?)
      reads this, compareTo
    {
      && compareTo != null && compareTo != this
      && !SameNonDefaultId(State(), compareTo.State())
      && SameType(State(), compareTo.State())
      && (IsTransient() || compareTo.IsTransient())
    }

    /** Equals. */
    method Equals(obj: Reference) returns (r: bool)
      requires index.Valid()
      modifies index
      ensures index.Valid()
      ensures var compareTo := Cast(obj);
              r == EntityEquals(State(), if compareTo == null then None else Some(compareTo.State()), compareTo == this)
      ensures index.memo == if ComparesSignatures(Cast(obj)) then Some(MemoLookup(old(index.memo), typ).1) else old(index.memo)
    {
      var compareTo := Cast(obj);
      if compareTo == this {
        return true;
      }
      if compareTo == null {
        return false;
      }
      if SameNonDefaultId(State(), compareTo.State()) {
        return true;
      }
      if !(SameType(State(), compareTo.State()) && (IsTransient() || compareTo.IsTransient())) {
        return false;
      }
      var properties := GetSignatureProperties();
      r := SameBusinessSignature(properties, State(), compareTo.State(), false);
    }
  }
}
