/** DomainEntityIdentityComparer: deciding whether an identifier still holds
    the default value of its type, i.e. whether its entity is transient. */
module IdentityComparer {
  import opened Primitives

  /** The identifier types an entity may be keyed by: Int32, String, or a
      reference type. Each reference type is told apart by an abstract
      handle of its class, so DomainEntity<A> and DomainEntity<B> differ. */
  datatype IdKind = IntKind | StringKind | ReferenceKind(cls: nat)

  /** A value of one of those identifier types; a reference identifier
      carries its class and the (nullable) object, an abstract handle. */
  datatype Identifier =
    | IntId(n: int32)
    | StrId(s: NullableString)
    | RefId(cls: nat, r: Option<nat>)

  function KindOf(v: Identifier): IdKind {
    match v
    case IntId(_) => IntKind
    case StrId(_) => StringKind
    case RefId(c, _) => ReferenceKind(c)
  }

  /** default(T) for each identifier type: 0, and null for String and for
      reference types. */
  function DefaultOf(k: IdKind): (d: Identifier)
    ensures KindOf(d) == k
  {
    match k
    case IntKind => IntId(0)
    case StringKind => StrId(None)
    case ReferenceKind(c) => RefId(c, None)
  }

  /** IsNullOrDefault<T>: a string is tested with String.IsNullOrEmpty, any
      other value is compared with default(T) by the type's default equality
      (for a reference type that is the null test). Total: no input throws. */
  predicate IsNullOrDefault(v: Identifier)
    ensures IsNullOrDefault(v) <==> v == DefaultOf(KindOf(v)) || v == StrId(Some(""))
  {
    match v
    case StrId(s) => IsNullOrEmpty(s)
    case IntId(n) => n == 0
    case RefId(_, r) => r == None
  }

  // The cases the identity-comparer test suite pins down.

  lemma IntDefaults()
    ensures IsNullOrDefault(IntId(0))
    ensures !IsNullOrDefault(IntId(1))
  {
  }

  lemma StringDefaults(s: string)
    ensures IsNullOrDefault(StrId(None))
    ensures IsNullOrDefault(StrId(Some("")))
    ensures s != "" ==> !IsNullOrDefault(StrId(Some(s)))
  {
  }

  lemma ReferenceDefaults(c: nat, o: nat)
    ensures IsNullOrDefault(RefId(c, None))
    ensures !IsNullOrDefault(RefId(c, Some(o)))
  {
  }

  /** The empty string is default although default(string) is null: the
      String branch is taken before the comparison with default(T). */
  lemma EmptyStringIsDefaultButNotDefaultOf()
    ensures IsNullOrDefault(StrId(Some("")))
    ensures StrId(Some("")) != DefaultOf(StringKind)
  {
  }
}
