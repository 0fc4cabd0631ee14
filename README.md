# MatcherConfig: property-matcher configuration builder

A Dafny model of the configuration builder of hamcrest-auto-matcher, a test
library that builds composite equality matchers for model objects. A
`Builder` is bound to one non-null expected object and collects an ordered
list of property rules. Each rule is a `PropertyConfig`: a property name, a
matcher and an accessor. When a rule is added, the builder reads the expected
object's property value once and binds a matcher to it:

- scalar properties: null gives "actual must be null"; anything else gives the
  caller's matcher factory applied to the value (`equalTo` for
  `addEqualsProperty`);
- iterable properties: null gives the null-iterable matcher (only null
  matches); empty gives `emptyIterable` (only an empty iterable matches);
  otherwise `contains` over one element matcher per expected element, matched
  pairwise and in order.

`build()` returns an immutable `MatcherConfig` holding the expected object and
a copy of the rule list.

Files:

- `wrappers.dfy`: `Option`, for a Java reference that may be null.
- `matching.dfy` (module `Matching`): the property values (`Value`: null, an
  integer, a string, or an iterable of values) and the matchers the builder
  chooses among (`Matcher`), with `Matches` giving what each one accepts.
  `Satisfies` stands for any matcher a caller's factory builds.
- `config.dfy` (module `Config`): `PropertyConfig`, `MatcherConfig`, the
  matcher selection (`CreateMatcher`, `CreateListMatcher`), the `Builder`
  class, `NewBuilder` (the static `builder` factory), and the lemmas about
  them. `AllPropertiesMatch` abstracts the composite matcher's verdict: every
  rule's matcher accepts the value its accessor reads from the actual object.
  The builder methods keep "the expected object satisfies all of its own
  rules" whenever the factories used accept the values they were built from.
- `scenario.dfy` (module `Scenario`): a client that configures id, name and
  tags on an expected object with empty tags and shows that an actual object
  with null tags fails on the tags rule only.

The private `MatcherConfig` constructor is the datatype constructor
`Config.MatcherConfig`; wrapping the list as unmodifiable is immaterial for an
immutable sequence. `builder(null)` throws a `NullPointerException` in the
code (`Objects.requireNonNull`), not an illegal-argument error; the model
follows the code and returns `None`.

## Model

| member | source | states |
|---|---|---|
| `Matching.MatchesInOrderIff` | src/main/java/com/github/hamstercommunity/matcher/config/MatcherConfig.java:140-143 | the in-order walk of `contains` accepts a sequence if and only if it has as many elements as there are matchers and element i satisfies matcher i |
| `Matching.NullIterableDescribeTo` | src/main/java/com/github/hamstercommunity/matcher/config/MatcherConfig.java:173-176 | describing the null-iterable matcher appends exactly the text `null` and keeps the description built so far as a prefix |
| `Config.MatcherConfig.GetPropertyConfigs` | src/main/java/com/github/hamstercommunity/matcher/config/MatcherConfig.java:48-51 | the list handed out is the configuration's rules, all of them, in insertion order |
| `Config.EqualToFactory` | src/main/java/com/github/hamstercommunity/matcher/config/MatcherConfig.java:80 | the matcher built for a value accepts an actual value exactly when it equals that value |
| `Config.EqualToFactoryReflexive` | src/main/java/com/github/hamstercommunity/matcher/config/MatcherConfig.java:80 | every equalTo matcher accepts the value it was built from, null included |
| `Config.CreateMatcher` | src/main/java/com/github/hamstercommunity/matcher/config/MatcherConfig.java:102-109 | null expected value: the matcher accepts exactly the null actual values; otherwise it is the factory's matcher for the expected value |
| `Config.NullExpectedIgnoresFactory` | src/main/java/com/github/hamstercommunity/matcher/config/MatcherConfig.java:104-107 | for a null expected value the chosen matcher does not depend on the factory at all |
| `Config.EqualsPropertyMatchesIff` | src/main/java/com/github/hamstercommunity/matcher/config/MatcherConfig.java:79-109 | an equals-property rule accepts an actual value if and only if it equals the expected object's value, null or not; so the expected object matches its own rule |
| `Config.MatcherAcceptsExpected` | src/main/java/com/github/hamstercommunity/matcher/config/MatcherConfig.java:102-109 | with a factory that accepts the non-null values it is built from, the chosen matcher accepts the expected object's own value |
| `Config.CreateListMatcher` | src/main/java/com/github/hamstercommunity/matcher/config/MatcherConfig.java:132-149 | null expected iterable: accepts exactly null; empty: accepts exactly the empty iterable; otherwise a `contains` with one element matcher per expected element, the factory's matcher for that element, in the same order |
| `Config.NullIterableRejectsEmpty` | src/main/java/com/github/hamstercommunity/matcher/config/MatcherConfig.java:167-171 | the rule for a null expected iterable accepts null and rejects an empty iterable; what `NullIterableMatcher.matches` accepts (only null) is the `NullIterable` case of `Matching.Matches` |
| `Config.EmptyIterableRejectsNull` | src/main/java/com/github/hamstercommunity/matcher/config/MatcherConfig.java:137-138 | the rule for an empty expected iterable accepts an empty iterable and rejects null |
| `Config.NonEmptyListMatchesIff` | src/main/java/com/github/hamstercommunity/matcher/config/MatcherConfig.java:140-143 | for a non-empty expected iterable the rule accepts an actual value if and only if it is an iterable of the same length whose element i satisfies the factory's matcher for expected element i |
| `Config.OrderMatters` | src/main/java/com/github/hamstercommunity/matcher/config/MatcherConfig.java:140-143 | with equalTo elements and a differing from b, the rule built from [a, b] rejects [b, a] |
| `Config.ListMatcherAcceptsExpected` | src/main/java/com/github/hamstercommunity/matcher/config/MatcherConfig.java:132-143 | with an element factory that accepts the values it is built from, the list rule accepts the expected iterable itself (null, empty or not) |
| `Config.Builder.constructor` | src/main/java/com/github/hamstercommunity/matcher/config/MatcherConfig.java:65-67 | a new builder is bound to the given expected object and holds no rules |
| `Config.NewBuilder` | src/main/java/com/github/hamstercommunity/matcher/config/MatcherConfig.java:54-67 | a null expected object is rejected; any other gives a fresh builder bound to it with no rules |
| `Config.Builder.AddEqualsProperty` | src/main/java/com/github/hamstercommunity/matcher/config/MatcherConfig.java:79-81 | appends one rule with the given name and accessor and the equalTo-based matcher, leaves earlier rules unchanged, returns the same builder, and keeps the expected object matching all rules |
| `Config.Builder.AddProperty` | src/main/java/com/github/hamstercommunity/matcher/config/MatcherConfig.java:95-99 | appends one rule with the given name and accessor and the matcher chosen from the expected value now, leaves earlier rules unchanged, returns the same builder; with a reflexive factory the expected object still matches all rules |
| `Config.Builder.AddIterableProperty` | src/main/java/com/github/hamstercommunity/matcher/config/MatcherConfig.java:124-130 | appends one rule with the given name and accessor and the list matcher chosen from the expected iterable now, leaves earlier rules unchanged, returns the same builder; with a reflexive element factory the expected object still matches all rules |
| `Config.Builder.AddPropertyInternal` | src/main/java/com/github/hamstercommunity/matcher/config/MatcherConfig.java:151-155 | the rule list grows by exactly the given triple at its end and the builder itself is returned |
| `Config.Builder.Build` | src/main/java/com/github/hamstercommunity/matcher/config/MatcherConfig.java:162-164 | the configuration holds the builder's expected object and exactly its current rules in order; if the expected object matches those rules, it matches the built configuration |
| `Config.BuildIsSnapshot` | src/main/java/com/github/hamstercommunity/matcher/config/MatcherConfig.java:162-164 | a configuration built before a further addition keeps the old rule list; the builder's list becomes the old list plus the equalTo rule for the given name and accessor, and a configuration built after holds exactly that list |
| `Scenario.EmptyTagsAgainstNullTags` | src/main/java/com/github/hamstercommunity/matcher/config/MatcherConfig.java:124-143 | an object with empty tags matches its own id, name and tags rules; one that differs only by null tags fails the tags rule and passes the other two |

## Left out

- AutoMatcher (`src/main/java/com/github/hamstercommunity/matcher/auto/AutoMatcher.java`): a facade over reflection-driven configuration and the matcher library's `contains`, `containsInAnyOrder` and `emptyIterable`; reflection-based property discovery is not part of this model.
- DemoModel (`src/test/java/com/github/hamstercommunity/matcher/model/DemoModel.java`): a test fixture with a constructor, getters and `toString`; it holds no logic. `Scenario.Sample` plays its part.
- The composite matcher (`ConfigurableMatcher`) is not part of this model: its evaluation, mismatch reports and handling of failing accessors. `AllPropertiesMatch` states only its overall verdict.
- Descriptions: only `NullIterableMatcher.describeTo` is modelled, with the description as a string. The texts of the other matchers come from the matcher library and are left out.
- The matcher library's `nullValue`, `equalTo`, `emptyIterable` and `contains` are modelled by what they accept, in `Matching.Matches`. Their code is not part of this model.
- `getExpected` is the datatype field `expected`.
- Java `equals` is modelled as structural equality of `Value`. A user-defined `equals` is not modelled.
- Values are null, integers, strings and iterables of values. Other Java types are left out; they only add more scalars.
- Accessors are total, side-effect-free functions. An accessor that throws is not modelled.
- Generic types, unchecked casts and stream plumbing are left out. Only their effect on values is kept: ordered sequences, left unchanged.
- Config.Builder.AddIterableProperty: Java's type `Function<B, Iterable<? extends P>>` says that the accessor returns null or an iterable. The model states this as a precondition over all objects.
- Thread confinement of the builder is not modelled. The model is sequential.
