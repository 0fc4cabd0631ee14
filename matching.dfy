/**
  The values a property accessor can return and the matchers the configuration
  builder chooses among, with the meaning of "matcher m accepts value v".

  A Java property value is either null, a scalar, or an iterable of values;
  Java `equals` on such values is modelled as structural equality.
 */
module Matching {

  datatype Value =
    | Null
    | Int(i: int)
    | Str(s: string)
    | Items(elems: seq<Value>)

  /** What an accessor of an iterable property can return: null or an iterable. */
  predicate IsIterable(v: Value)
  {
    v.Null? || v.Items?
  }

  type IterableValue = v: Value | IsIterable(v) witness Null

  datatype Matcher =
    | IsNull                            // the matcher library's nullValue()
    | NullIterable                      // MatcherConfig.NullIterableMatcher
    | EqualTo(expected: Value)          // the matcher library's equalTo(expected)
    | Satisfies(accepts: Value -> bool) // any other matcher a caller's factory builds
    | EmptyIterable                     // the matcher library's emptyIterable()
    | Contains(elements: seq<Matcher>)  // the matcher library's contains(list of matchers)

  /** Does matcher `m` accept the actual value `actual`? */
  function Matches(m: Matcher, actual: Value): bool
    decreases m
  {
    match m
    case IsNull => actual.Null?
    case NullIterable => actual.Null?
    case EqualTo(e) => actual == e
    case Satisfies(accepts) => accepts(actual)
    case EmptyIterable => actual.Items? && actual.elems == []
    case Contains(ms) => actual.Items? && MatchesInOrder(ms, actual.elems)
  }

  /**
    The in-order walk of `contains`: each element is consumed by the next
    matcher, and neither elements nor matchers may be left over.
   */
  function MatchesInOrder(ms: seq<Matcher>, items: seq<Value>): bool
    decreases ms
  {
    if ms == [] then items == []
    else items != [] && Matches(ms[0], items[0]) && MatchesInOrder(ms[1..], items[1..])
  }

  /** The in-order walk accepts exactly the sequences of the same length matched pairwise. */
  lemma {:induction false} MatchesInOrderIff(ms: seq<Matcher>, items: seq<Value>)
    ensures MatchesInOrder(ms, items) <==>
              |ms| == |items| && forall i :: 0 <= i < |ms| ==> Matches(ms[i], items[i])
  {
    if ms != [] && items != [] {
      MatchesInOrderIff(ms[1..], items[1..]);
      if |ms| == |items| && forall i :: 0 <= i < |ms| ==> Matches(ms[i], items[i]) {
        forall i | 0 <= i < |ms| - 1
          ensures Matches(ms[1..][i], items[1..][i])
        {
          assert Matches(ms[i + 1], items[i + 1]);
        }
      }
      if MatchesInOrder(ms, items) {
        forall i | 0 <= i < |ms|
          ensures Matches(ms[i], items[i])
        {
          if i > 0 {
            assert ms[i] == ms[1..][i - 1] && items[i] == items[1..][i - 1];
          }
        }
      }
    }
  }

  /**
    NullIterableMatcher.describeTo: appends the text "null" to the description
    built so far and leaves what was already there untouched.
   */
  function NullIterableDescribeTo(description: string): (r: string)
    ensures |r| == |description| + 4
    ensures r[..|description|] == description
    ensures r[|description|..] == "null"
  {
    description + "null"
  }
}
