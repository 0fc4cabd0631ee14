/**
  A client of the builder: a model object with an id, a name and a list of
  tags, configured against an expected object whose tags are empty, and
  matched against an actual object whose tags are null.
 */
module Scenario {
  import opened Wrappers
  import opened Matching
  import opened Config

  datatype Sample = Sample(id: int, name: string, tags: IterableValue)

  function IdOf(s: Sample): Value { Int(s.id) }
  function NameOf(s: Sample): Value { Str(s.name) }
  function TagsOf(s: Sample): Value { s.tags }

  /**
    "Empty" and "null" are different expectations: the expected object matches
    its own configuration, while an actual object that differs only in having
    null tags fails on the tags rule and on no other.
   */
  method EmptyTagsAgainstNullTags() returns (config: MatcherConfig<Sample>)
    ensures |config.propertyConfigs| == 3
    ensures config.propertyConfigs[2].name == "tags"
    ensures AllPropertiesMatch(config.propertyConfigs, Sample(1, "x", Items([])))
    ensures !AllPropertiesMatch(config.propertyConfigs, Sample(1, "x", Null))
    ensures forall i :: 0 <= i < 2 ==>
              Matches(config.propertyConfigs[i].matcher, config.propertyConfigs[i].accessor(Sample(1, "x", Null)))
  {
    var expected := Sample(1, "x", Items([]));
    var actual := Sample(1, "x", Null);
    var created := NewBuilder(Some(expected));
    var b := created.value;
    EqualToFactoryReflexive();
    var _ := b.AddEqualsProperty("id", IdOf);
    var _ := b.AddEqualsProperty("name", NameOf);
    var _ := b.AddIterableProperty("tags", TagsOf, EqualToFactory);
    config := b.Build();
    assert !Matches(config.propertyConfigs[2].matcher, TagsOf(actual));
  }
}
