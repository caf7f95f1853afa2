/** ValidatePasswordLengthAttribute: a validation attribute that accepts a
    value when it is a string of at least MinCharacters characters. */
module PasswordValidation {
  import opened Primitives

  /** What a validated property may hold: null, a string, or some other
      object (represented by an abstract handle). */
  datatype Object = Null | Str(s: string) | Other(handle: nat)

  class ValidatePasswordLength {
    /** MinCharacters: its setter is private and only the constructor calls
        it, so it is fixed for the attribute's lifetime. */
    const minCharacters: int32

    constructor (minCharacters: int32)
      ensures this.minCharacters == minCharacters
    {
      this.minCharacters := minCharacters;
    }

    /** IsValid: `value as string` must be non-null and long enough, its
        Length counted in UTF-16 code units. */
    predicate IsValid(value: Object)
      ensures IsValid(value) ==> value.Str?
      ensures value.Str? && |value.s| >= minCharacters as int ==> IsValid(value)
      ensures value.Str? && 2 * |value.s| < minCharacters as int ==> !IsValid(value)
    {
      match value
      case Str(s) => Utf16Length(s) >= minCharacters as int
      case _ => false
    }

    /** On text inside the Basic Multilingual Plane, Length is the number of
        characters. */
    lemma BmpLength(s: string)
      requires forall i :: 0 <= i < |s| ==> (s[i] as int) < 0x1_0000
      ensures IsValid(Str(s)) <==> |s| >= minCharacters as int
    {
    }

    /** Null and non-string objects are always rejected. */
    lemma RejectsNonStrings(handle: nat)
      ensures !IsValid(Null) && !IsValid(Other(handle))
    {
    }

    /** A threshold of zero or less accepts every string, the empty one
        included. */
    lemma NonPositiveAcceptsAll(s: string)
      requires minCharacters <= 0
      ensures IsValid(Str(s))
    {
    }
  }

  /** Three emoji are six UTF-16 code units, enough for MinCharacters 6. */
  lemma SurrogatePairsCountTwice(v: ValidatePasswordLength)
    requires v.minCharacters == 6
    ensures v.IsValid(Str("\U{1F600}\U{1F600}\U{1F600}"))
  {
    var s := "\U{1F600}\U{1F600}\U{1F600}";
    assert s[..2][..1] == s[..1];
    assert Utf16Length(s[..1]) == 2;
    assert Utf16Length(s[..2]) == 4;
  }

  /** Lowering the threshold never rejects a value that was accepted. */
  lemma ThresholdMonotone(strict: ValidatePasswordLength, lenient: ValidatePasswordLength, value: Object)
    requires lenient.minCharacters <= strict.minCharacters
    requires strict.IsValid(value)
    ensures lenient.IsValid(value)
  {
  }
}
