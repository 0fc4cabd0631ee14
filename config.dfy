/**
  MatcherConfig and its Builder: an ordered list of property rules
  (name, matcher, accessor) configured against one expected object.
  Each rule's matcher is bound to the expected object's property value at the
  moment the rule is added.
 */
module Config {
  import opened Wrappers
  import opened Matching

  /** One property rule: the matcher is already bound to the expected value. */
  datatype PropertyConfig<!B> = PropertyConfig(name: string, matcher: Matcher, accessor: B -> Value)

  /** A built configuration: read-only once created. */
  datatype MatcherConfig<!B> = MatcherConfig(expected: B, propertyConfigs: seq<PropertyConfig<B>>)
  {
    /** The rules, one by one and in the order they were added. */
    function GetPropertyConfigs(): (r: seq<PropertyConfig<B>>)
      ensures r == propertyConfigs
    {
      seq(|propertyConfigs|, i requires 0 <= i < |propertyConfigs| => propertyConfigs[i])
    }
  }

  /**
    The composite matcher's verdict, abstracted: every rule's matcher accepts
    the value its accessor reads from `actual`.
   */
  predicate AllPropertiesMatch<B>(configs: seq<PropertyConfig<B>>, actual: B)
  {
    forall i :: 0 <= i < |configs| ==> Matches(configs[i].matcher, configs[i].accessor(actual))
  }

  /** A matcher factory that accepts every non-null value it was built from. */
  ghost predicate ReflexiveOnNonNull(factory: Value -> Matcher)
  {
    forall v: Value :: !v.Null? ==> Matches(factory(v), v)
  }

  /** A matcher factory that accepts every value it was built from, null included. */
  ghost predicate Reflexive(factory: Value -> Matcher)
  {
    forall v :: Matches(factory(v), v)
  }

  /** The factory addEqualsProperty passes: equalTo, value equality. */
  function EqualToFactory(v: Value): (m: Matcher)
    ensures forall actual :: Matches(m, actual) <==> actual == v
  {
    EqualTo(v)
  }

  lemma EqualToFactoryReflexive()
    ensures Reflexive(EqualToFactory)
  {
  }

  /**
    Builder.createMatcher: reads the expected property value once; null gives
    "actual must be null" without consulting the factory, anything else gives
    the factory's matcher for that value.
   */
  function CreateMatcher<B>(expected: B, accessor: B -> Value, factory: Value -> Matcher): (m: Matcher)
    ensures accessor(expected).Null? ==> forall actual :: Matches(m, actual) <==> actual.Null?
    ensures !accessor(expected).Null? ==> m == factory(accessor(expected))
  {
    var expectedValue := accessor(expected);
    if expectedValue.Null? then IsNull else factory(expectedValue)
  }

  /**
    Builder.createListMatcher: null expected gives the null-iterable matcher,
    empty gives emptyIterable, and otherwise one element matcher per expected
    element, in the same order, under contains.
   */
  function CreateListMatcher(factory: Value -> Matcher, expectedValue: IterableValue): (m: Matcher)
    ensures expectedValue.Null? ==> forall actual :: Matches(m, actual) <==> actual.Null?
    ensures expectedValue == Items([]) ==> forall actual :: Matches(m, actual) <==> actual == Items([])
    ensures expectedValue.Items? && expectedValue.elems != [] ==>
              && m.Contains?
              && |m.elements| == |expectedValue.elems|
              && forall i :: 0 <= i < |m.elements| ==> m.elements[i] == factory(expectedValue.elems[i])
  {
    if expectedValue.Null? then NullIterable
    else if expectedValue.elems == [] then EmptyIterable
    else
      var es := expectedValue.elems;
      Contains(seq(|es|, i requires 0 <= i < |es| => factory(es[i])))
  }

  /** An equals-property rule accepts an actual value exactly when it equals the expected one. */
  lemma EqualsPropertyMatchesIff<B>(expected: B, accessor: B -> Value, actual: Value)
    ensures Matches(CreateMatcher(expected, accessor, EqualToFactory), actual) <==> actual == accessor(expected)
  {
  }

  /** A rule over a null expected value ignores the factory: only null is accepted. */
  lemma NullExpectedIgnoresFactory<B>(expected: B, accessor: B -> Value, f: Value -> Matcher, g: Value -> Matcher)
    requires accessor(expected).Null?
    ensures CreateMatcher(expected, accessor, f) == CreateMatcher(expected, accessor, g)
  {
  }

  /** A null expected iterable is not the same rule as an empty one: an empty actual fails it. */
  lemma NullIterableRejectsEmpty(factory: Value -> Matcher)
    ensures !Matches(CreateListMatcher(factory, Null), Items([]))
    ensures Matches(CreateListMatcher(factory, Null), Null)
  {
  }

  /** An empty expected iterable rejects a null actual one. */
  lemma EmptyIterableRejectsNull(factory: Value -> Matcher)
    ensures !Matches(CreateListMatcher(factory, Items([])), Null)
    ensures Matches(CreateListMatcher(factory, Items([])), Items([]))
  {
  }

  /**
    A non-empty expected iterable accepts exactly the iterables of the same
    length whose i-th element satisfies the factory's matcher for the i-th
    expected element.
   */
  lemma NonEmptyListMatchesIff(factory: Value -> Matcher, expected: seq<Value>, actual: Value)
    requires expected != []
    ensures Matches(CreateListMatcher(factory, Items(expected)), actual) <==>
              && actual.Items?
              && |actual.elems| == |expected|
              && forall i :: 0 <= i < |expected| ==> Matches(factory(expected[i]), actual.elems[i])
  {
    var m := CreateListMatcher(factory, Items(expected));
    if actual.Items? {
      MatchesInOrderIff(m.elements, actual.elems);
    }
  }

  /** Order matters: with distinct elements, [a, b] does not accept [b, a]. */
  lemma OrderMatters(a: Value, b: Value)
    requires a != b
    ensures !Matches(CreateListMatcher(EqualToFactory, Items([a, b])), Items([b, a]))
  {
    NonEmptyListMatchesIff(EqualToFactory, [a, b], Items([b, a]));
  }

  /** With a reflexive element factory, a list rule accepts the value it was built from. */
  lemma ListMatcherAcceptsExpected(factory: Value -> Matcher, expectedValue: IterableValue)
    requires Reflexive(factory)
    ensures Matches(CreateListMatcher(factory, expectedValue), expectedValue)
  {
    if expectedValue.Items? && expectedValue.elems != [] {
      NonEmptyListMatchesIff(factory, expectedValue.elems, expectedValue);
    }
  }

  /** With a reflexive factory, a scalar rule accepts the value it was built from. */
  lemma MatcherAcceptsExpected<B>(expected: B, accessor: B -> Value, factory: Value -> Matcher)
    requires ReflexiveOnNonNull(factory)
    ensures Matches(CreateMatcher(expected, accessor, factory), accessor(expected))
  {
  }

  class Builder<B> {
    const expected: B
    var properties: seq<PropertyConfig<B>>

    /** The private constructor: a fresh builder bound to a non-null expected object. */
    constructor (expected: B)
      ensures this.expected == expected && properties == []
    {
      this.expected := expected;
      properties := [];
    }

    /** addEqualsProperty: addProperty with equalTo as the matcher factory. */
    method AddEqualsProperty(name: string, accessor: B -> Value) returns (self: Builder<B>)
      modifies this
      ensures self == this
      ensures properties == old(properties) + [PropertyConfig(name, CreateMatcher(expected, accessor, EqualToFactory), accessor)]
      ensures AllPropertiesMatch(old(properties), expected) ==> AllPropertiesMatch(properties, expected)
    {
      EqualToFactoryReflexive();
      self := AddProperty(name, accessor, EqualToFactory);
    }

    /** addProperty: bind the matcher to the expected value now, then append the rule. */
    method AddProperty(name: string, accessor: B -> Value, factory: Value -> Matcher) returns (self: Builder<B>)
      modifies this
      ensures self == this
      ensures properties == old(properties) + [PropertyConfig(name, CreateMatcher(expected, accessor, factory), accessor)]
      ensures ReflexiveOnNonNull(factory) && AllPropertiesMatch(old(properties), expected) ==>
                AllPropertiesMatch(properties, expected)
    {
      var matcher := CreateMatcher(expected, accessor, factory);
      if ReflexiveOnNonNull(factory) {
        MatcherAcceptsExpected(expected, accessor, factory);
      }
      self := AddPropertyInternal(name, matcher, accessor);
    }

    /** addIterableProperty: a rule over an ordered iterable, elements matched in order. */
    method AddIterableProperty(name: string, accessor: B -> Value, factory: Value -> Matcher)
      returns (self: Builder<B>)
      requires forall o :: IsIterable(accessor(o))
      modifies this
      ensures self == this
      ensures properties == old(properties) + [PropertyConfig(name, CreateListMatcher(factory, accessor(expected)), accessor)]
      ensures Reflexive(factory) && AllPropertiesMatch(old(properties), expected) ==>
                AllPropertiesMatch(properties, expected)
    {
      var expectedPropertyValue := accessor(expected);
      var listMatcher := CreateListMatcher(factory, expectedPropertyValue);
      if Reflexive(factory) {
        ListMatcherAcceptsExpected(factory, expectedPropertyValue);
      }
      self := AddPropertyInternal(name, listMatcher, accessor);
    }

    /** addPropertyInternal: append exactly one rule at the end; earlier rules stay as they were. */
    method AddPropertyInternal(name: string, matcher: Matcher, accessor: B -> Value) returns (self: Builder<B>)
      modifies this
      ensures self == this
      ensures properties == old(properties) + [PropertyConfig(name, matcher, accessor)]
      ensures |properties| == |old(properties)| + 1
      ensures Matches(matcher, accessor(expected)) && AllPropertiesMatch(old(properties), expected) ==>
                AllPropertiesMatch(properties, expected)
    {
      properties := properties + [PropertyConfig(name, matcher, accessor)];
      self := this;
    }

    /** build: a configuration holding the expected object and a copy of the rules so far. */
    method Build() returns (c: MatcherConfig<B>)
      ensures c.expected == expected
      ensures c.GetPropertyConfigs() == properties
      ensures AllPropertiesMatch(properties, expected) ==> AllPropertiesMatch(c.propertyConfigs, c.expected)
    {
      var copy := properties;
      c := MatcherConfig(expected, copy);
    }
  }

  /** MatcherConfig.builder: a null expected object is rejected, anything else gets an empty builder. */
  method NewBuilder<B>(expected: Option<B>) returns (r: Option<Builder<B>>)
    ensures r.None? <==> expected.None?
    ensures r.Some? ==> fresh(r.value) && r.value.expected == expected.value && r.value.properties == []
  {
    if expected.None? {
      r := None;
    } else {
      var b := new Builder(expected.value);
      r := Some(b);
    }
  }

  /** A built configuration is a snapshot: adding to the builder afterwards does not change it. */
  method BuildIsSnapshot<B>(b: Builder<B>, name: string, accessor: B -> Value)
    returns (before: MatcherConfig<B>, after: MatcherConfig<B>)
    modifies b
    ensures before.propertyConfigs == old(b.properties)
    ensures b.properties == old(b.properties) + [PropertyConfig(name, CreateMatcher(b.expected, accessor, EqualToFactory), accessor)]
    ensures after.propertyConfigs == b.properties
    ensures after.propertyConfigs == before.propertyConfigs + [PropertyConfig(name, CreateMatcher(b.expected, accessor, EqualToFactory), accessor)]
    ensures after.expected == before.expected == b.expected
  {
    before := b.Build();
    var _ := b.AddEqualsProperty(name, accessor);
    after := b.Build();
  }
}
