/**
 * `PlatformClientFetchedEntity`: the record tying a client to an entity it fetched. Its
 * `equals`, `hashCode` and `toString` are pure functions of the three fields. The descriptor
 * is `ClientDescriptor` or `null` (`None`); its own `equals` is taken to be value equality,
 * and the `hashCode`/`toString` of strings and descriptors are passed in as functions.
 */
module Monitoring {
  import opened Wrappers

  datatype PlatformClientFetchedEntity<D> = PlatformClientFetchedEntity(
    clientIdentifier: string,
    entityIdentifier: string,
    clientDescriptor: Option<D>)

  /** The argument of `equals(Object other)`, as far as `equals` can tell it apart. */
  datatype Other<D> =
    | NullReference
    | OtherClass
    | SameReference
    | DistinctRecord(that: PlatformClientFetchedEntity<D>)

  /**
   * `equals` throws a `NullPointerException` exactly when it reaches
   * `this.clientDescriptor.equals(...)` with an absent receiver descriptor: both identifiers
   * match, this descriptor is absent and the other one is present.
   */
  predicate EqualsDefined<D>(self: PlatformClientFetchedEntity<D>, other: Other<D>)
    ensures !other.DistinctRecord? ==> EqualsDefined(self, other)
    ensures self.clientDescriptor.Some? ==> EqualsDefined(self, other)
    ensures other.DistinctRecord? && other.that.clientDescriptor.None? ==> EqualsDefined(self, other)
    ensures other.DistinctRecord? && self.clientIdentifier != other.that.clientIdentifier
            ==> EqualsDefined(self, other)
  {
    !(other.DistinctRecord?
      && self.clientIdentifier == other.that.clientIdentifier
      && self.entityIdentifier == other.that.entityIdentifier
      && self.clientDescriptor.None? && other.that.clientDescriptor.Some?)
  }

  /**
   * `equals`, as written: the same reference is equal without looking at the fields; `null` and
   * objects of other classes are not equal; otherwise the identifiers must match and the
   * descriptors must be both absent or equal.
   */
  function Equals<D(==)>(self: PlatformClientFetchedEntity<D>, other: Other<D>): (r: bool)
    requires EqualsDefined(self, other)
    ensures other.SameReference? ==> r
    ensures other.NullReference? || other.OtherClass? ==> !r
    ensures other.DistinctRecord? ==> (r <==> self == other.that)
  {
    var doesMatch := other.SameReference?;
    if !doesMatch && other.DistinctRecord? then
      var that := other.that;
      self.clientIdentifier == that.clientIdentifier
      && self.entityIdentifier == that.entityIdentifier
      && ((self.clientDescriptor.None? && that.clientDescriptor.None?)
          || DescriptorEquals(self.clientDescriptor.value, that.clientDescriptor))
    else
      doesMatch
  }

  /** `ClientDescriptor.equals(Object)`: a present descriptor never equals `null`. */
  function DescriptorEquals<D(==)>(d: D, other: Option<D>): bool
  {
    other == Some(d)
  }

  /** On distinct records on which it is defined, `equals` is symmetric. */
  lemma EqualsSymmetric<D>(a: PlatformClientFetchedEntity<D>, b: PlatformClientFetchedEntity<D>)
    requires EqualsDefined(a, DistinctRecord(b)) && EqualsDefined(b, DistinctRecord(a))
    ensures Equals(a, DistinctRecord(b)) == Equals(b, DistinctRecord(a))
  {
  }

  /** `hashCode`: the XOR of the three component hash codes (Java `int`, so 32 bits). */
  function HashCode<D>(self: PlatformClientFetchedEntity<D>, stringHash: string -> bv32, descriptorHash: D -> bv32): (h: bv32)
    requires self.clientDescriptor.Some?
    ensures h == stringHash(self.clientIdentifier) ^ stringHash(self.entityIdentifier)
                 ^ descriptorHash(self.clientDescriptor.value)
  {
    stringHash(self.clientIdentifier) ^ stringHash(self.entityIdentifier)
    ^ descriptorHash(self.clientDescriptor.value)
  }

  /**
   * Records that `equals` calls equal have equal hash codes, whenever both hash codes are
   * defined.
   */
  lemma EqualRecordsHashEqual<D>(a: PlatformClientFetchedEntity<D>, other: Other<D>,
                                     stringHash: string -> bv32, descriptorHash: D -> bv32)
    requires EqualsDefined(a, other) && Equals(a, other)
    requires a.clientDescriptor.Some?
    requires other.DistinctRecord? ==> other.that.clientDescriptor.Some?
    ensures other.SameReference? || other.DistinctRecord?
    ensures other.DistinctRecord? ==>
      HashCode(a, stringHash, descriptorHash) == HashCode(other.that, stringHash, descriptorHash)
  {
  }

  // ---------------------------------------------------------------------------------------
  // toString
  // ---------------------------------------------------------------------------------------

  const Prefix: string := "PlatformClientFetchedEntity{clientDescriptor="
  const ClientLabel: string := ", clientIdentifier="
  const EntityLabel: string := "', entityIdentifier="

  /** `StringBuilder.append(Object)`: `null` is rendered as the four letters "null". */
  function DescriptorText<D>(descriptor: Option<D>, describe: D -> string): string
  {
    match descriptor
    case None => "null"
    case Some(d) => describe(d)
  }

  /**
   * `toString`, piece by piece as the `StringBuilder` appends them: 88 fixed characters around
   * the descriptor text and the two identifiers, opening with the class name and closing with
   * the quote and brace after the entity identifier.
   */
  function ToString<D>(self: PlatformClientFetchedEntity<D>, describe: D -> string): (r: string)
    ensures |r| == 88 + |DescriptorText(self.clientDescriptor, describe)|
                  + |self.clientIdentifier| + |self.entityIdentifier|
    ensures r[..28] == "PlatformClientFetchedEntity{" && r[|r| - 2..] == "'}"
  {
    "PlatformClientFetchedEntity{"
    + "clientDescriptor=" + DescriptorText(self.clientDescriptor, describe)
    + ", clientIdentifier='" + self.clientIdentifier + "'"
    + ", entityIdentifier='" + self.entityIdentifier + "'"
    + "}"
  }

  /** Splits `s` at its last single quote into the text before and the text after it. */
  function SplitAtLastQuote(s: string): (r: Option<(string, string)>)
    ensures r.Some? ==> s == r.value.0 + "'" + r.value.1 && '\'' !in r.value.1
    decreases |s|
  {
    if s == [] then None
    else if s[|s| - 1] == '\'' then Some((s[..|s| - 1], ""))
    else
      match SplitAtLastQuote(s[..|s| - 1])
      case None => None
      case Some((before, after)) => Some((before, after + [s[|s| - 1]]))
  }

  lemma {:induction false} SplitAtLastQuoteOf(x: string, y: string)
    requires '\'' !in y
    ensures SplitAtLastQuote(x + "'" + y) == Some((x, y))
    decreases |y|
  {
    var s := x + "'" + y;
    if y == [] {
      assert s[..|s| - 1] == x;
    } else {
      var y' := y[..|y| - 1];
      assert s[..|s| - 1] == x + "'" + y';
      assert y' + [y[|y| - 1]] == y;
      SplitAtLastQuoteOf(x, y');
    }
  }

  /** `s` without the trailing `suffix`, if it ends with it. */
  function StripSuffix(s: string, suffix: string): (r: Option<string>)
    ensures r.Some? ==> s == r.value + suffix
  {
    if |s| < |suffix| || s[|s| - |suffix|..] != suffix then None else Some(s[..|s| - |suffix|])
  }

  /** `s` without the leading `prefix`, if it starts with it. */
  function StripPrefix(s: string, prefix: string): (r: Option<string>)
    ensures r.Some? ==> s == prefix + r.value
  {
    if |s| < |prefix| || s[..|prefix|] != prefix then None else Some(s[|prefix|..])
  }

  lemma StripSuffixOf(x: string, suffix: string)
    ensures StripSuffix(x + suffix, suffix) == Some(x)
  {
    var s := x + suffix;
    assert s[|s| - |suffix|..] == suffix;
    assert s[..|s| - |suffix|] == x;
  }

  lemma StripPrefixOf(prefix: string, x: string)
    ensures StripPrefix(prefix + x, prefix) == Some(x)
  {
    var s := prefix + x;
    assert s[..|prefix|] == prefix;
    assert s[|prefix|..] == x;
  }

  /**
   * Reads a `toString` rendering back into descriptor text, client and entity identifiers,
   * working from the end so that the descriptor's own text may contain anything.
   */
  function ParseToString(s: string): Option<(string, string, string)>
  {
    match StripSuffix(s, "'}")
    case None => None
    case Some(s1) =>
      match SplitAtLastQuote(s1)
      case None => None
      case Some((s2, entityIdentifier)) =>
        match StripSuffix(s2, EntityLabel)
        case None => None
        case Some(s3) =>
          match SplitAtLastQuote(s3)
          case None => None
          case Some((s4, clientIdentifier)) =>
            match StripSuffix(s4, ClientLabel)
            case None => None
            case Some(s5) =>
              match StripPrefix(s5, Prefix)
              case None => None
              case Some(descriptor) => Some((descriptor, clientIdentifier, entityIdentifier))
  }

  lemma Associative<T>(a: seq<T>, b: seq<T>, c: seq<T>)
    ensures a + (b + c) == a + b + c
  {
  }

  /** `toString` is the constant pieces around the descriptor text and the two identifiers. */
  lemma ToStringShape<D>(self: PlatformClientFetchedEntity<D>, describe: D -> string)
    ensures ToString(self, describe)
         == Prefix + DescriptorText(self.clientDescriptor, describe) + ClientLabel + "'"
            + self.clientIdentifier + EntityLabel + "'" + self.entityIdentifier + "'}"
  {
    var d := DescriptorText(self.clientDescriptor, describe);
    var c, e := self.clientIdentifier, self.entityIdentifier;
    var head := "PlatformClientFetchedEntity{" + "clientDescriptor=";
    assert head == Prefix;
    var withClient := head + d + ", clientIdentifier='" + c;
    assert ", clientIdentifier='" == ClientLabel + "'";
    Associative(head + d, ClientLabel, "'");
    assert withClient == Prefix + d + ClientLabel + "'" + c;
    var withEntity := withClient + "'" + ", entityIdentifier='" + e;
    assert "'" + ", entityIdentifier='" == EntityLabel + "'";
    Associative(withClient, "'", ", entityIdentifier='");
    Associative(withClient, EntityLabel, "'");
    assert withEntity == withClient + EntityLabel + "'" + e;
    Associative(withEntity, "'", "}");
  }

  /**
   * `toString` loses nothing when neither identifier contains a single quote: the descriptor's
   * rendering and both identifiers can be read back, in the order the fields are appended.
   */
  lemma ToStringRoundTrip<D>(self: PlatformClientFetchedEntity<D>, describe: D -> string)
    requires '\'' !in self.clientIdentifier && '\'' !in self.entityIdentifier
    ensures ParseToString(ToString(self, describe))
         == Some((DescriptorText(self.clientDescriptor, describe), self.clientIdentifier, self.entityIdentifier))
  {
    var d := DescriptorText(self.clientDescriptor, describe);
    var c, e := self.clientIdentifier, self.entityIdentifier;
    ToStringShape(self, describe);
    var s5 := Prefix + d;
    var s4 := s5 + ClientLabel;
    var s3 := s4 + "'" + c;
    var s2 := s3 + EntityLabel;
    var s1 := s2 + "'" + e;
    assert ToString(self, describe) == s1 + "'}";
    StripSuffixOf(s1, "'}");
    SplitAtLastQuoteOf(s2, e);
    StripSuffixOf(s3, EntityLabel);
    SplitAtLastQuoteOf(s4, c);
    StripSuffixOf(s5, ClientLabel);
    StripPrefixOf(Prefix, d);
  }

  // ---------------------------------------------------------------------------------------
  // equals with absent descriptors
  // ---------------------------------------------------------------------------------------

  /**
   * As written, `equals` is not symmetric on records whose descriptor was lost (for example by
   * deserialization): with matching identifiers, the record without a descriptor throws when
   * compared to one with a descriptor, while the reverse comparison answers false.
   */
  lemma EqualsAsymmetricWithoutDescriptor<D>(c: string, e: string, d: D)
    ensures var a := PlatformClientFetchedEntity(c, e, None);
            var b := PlatformClientFetchedEntity(c, e, Some(d));
            !EqualsDefined(a, DistinctRecord(b))
            && EqualsDefined(b, DistinctRecord(a)) && !Equals(b, DistinctRecord(a))
  {
  }

  /**
   * `equals` with a null-safe descriptor comparison (`Objects.equals`): defined on every
   * argument, and it agrees with `equals` wherever `equals` does not throw.
   */
  function NullSafeEquals<D(==)>(self: PlatformClientFetchedEntity<D>, other: Other<D>): (r: bool)
    ensures EqualsDefined(self, other) ==> r == Equals(self, other)
    ensures other.SameReference? ==> r
    ensures other.NullReference? || other.OtherClass? ==> !r
    ensures other.DistinctRecord? ==> (r <==> self == other.that)
  {
    match other
    case SameReference => true
    case NullReference => false
    case OtherClass => false
    case DistinctRecord(that) =>
      self.clientIdentifier == that.clientIdentifier
      && self.entityIdentifier == that.entityIdentifier
      && self.clientDescriptor == that.clientDescriptor
  }

  /** The corrected comparison is symmetric and transitive on distinct records. */
  lemma NullSafeEqualsIsEquivalence<D>(a: PlatformClientFetchedEntity<D>, b: PlatformClientFetchedEntity<D>,
                                           c: PlatformClientFetchedEntity<D>)
    ensures NullSafeEquals(a, DistinctRecord(b)) == NullSafeEquals(b, DistinctRecord(a))
    ensures NullSafeEquals(a, DistinctRecord(b)) && NullSafeEquals(b, DistinctRecord(c))
        ==> NullSafeEquals(a, DistinctRecord(c))
  {
  }
}
