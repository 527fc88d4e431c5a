/** Splitting appointments by their date against the current time. Dates
    are parsed by a collaborator given as a function, instants are abstract
    totally ordered values, and "now" is a parameter. */
module Timeline {
  import opened Kotlin

  /** A point in time; only its order matters. */
  type Instant = int

  /** `xs.filter(p)`. */
  function Filter<T(!new)>(xs: seq<T>, p: T -> bool): (r: seq<T>)
    ensures |r| <= |xs|
    ensures forall x :: x in r <==> x in xs && p(x)
  {
    if |xs| == 0 then []
    else (if p(xs[0]) then [xs[0]] else []) + Filter(xs[1..], p)
  }

  /** Filtering keeps every kept element as often as it occurs: nothing is
      duplicated or merged. */
  lemma {:induction false} FilterCounts<T(!new)>(xs: seq<T>, p: T -> bool)
    ensures forall x :: multiset(Filter(xs, p))[x] == if p(x) then multiset(xs)[x] else 0
  {
    if |xs| > 0 {
      FilterCounts(xs[1..], p);
      assert xs == [xs[0]] + xs[1..];
    }
  }

  function Not<T>(p: T -> bool): T -> bool {
    x => !p(x)
  }

  /** Filtering keeps the original order: it distributes over concatenation. */
  lemma {:induction false} FilterKeepsOrder<T(!new)>(a: seq<T>, b: seq<T>, p: T -> bool)
    ensures Filter(a + b, p) == Filter(a, p) + Filter(b, p)
  {
    if |a| == 0 {
      assert a + b == b;
    } else {
      assert (a + b)[1..] == a[1..] + b;
      FilterKeepsOrder(a[1..], b, p);
    }
  }

  /** A filter and its complement partition the list: together they hold
      every element exactly as often as the list does. */
  lemma {:induction false} FilterPartitions<T(!new)>(xs: seq<T>, p: T -> bool)
    ensures multiset(Filter(xs, p)) + multiset(Filter(xs, Not(p))) == multiset(xs)
    ensures |Filter(xs, p)| + |Filter(xs, Not(p))| == |xs|
  {
    if |xs| > 0 {
      FilterPartitions(xs[1..], p);
      assert xs == [xs[0]] + xs[1..];
    }
  }

  /** The exception message of the first element whose date fails to parse,
      if any: the first exception the source's `filter` lambdas raise. */
  function FirstParseFailure<T>(xs: seq<T>, dateOf: T -> string, parse: string -> Fallible<Instant>): (r: Option<Option<string>>)
    ensures r.None? <==> forall i :: 0 <= i < |xs| ==> parse(dateOf(xs[i])).Returned?
    ensures r.Some? ==> exists i :: 0 <= i < |xs| && parse(dateOf(xs[i])) == Thrown(r.value)
                                  && forall j :: 0 <= j < i ==> parse(dateOf(xs[j])).Returned?
  {
    if |xs| == 0 then None
    else match parse(dateOf(xs[0]))
      case Thrown(m) => Some(m)
      case Returned(_) =>
        var rest := FirstParseFailure(xs[1..], dateOf, parse);
        assert forall i :: 1 <= i < |xs| ==> xs[i] == xs[1..][i - 1];
        if rest.Some? then
          var k :| 0 <= k < |xs[1..]| && parse(dateOf(xs[1..][k])) == Thrown(rest.value)
                   && forall j :: 0 <= j < k ==> parse(dateOf(xs[1..][j])).Returned?;
          assert parse(dateOf(xs[k + 1])) == Thrown(rest.value);
          assert forall j :: 0 <= j < k + 1 ==> parse(dateOf(xs[j])).Returned?;
          rest
        else rest
  }

  /** `ZonedDateTime.parse(date).isAfter(now)`; an unparsable date is not
      pending (it never reaches this test in `Split`). */
  function IsPending<T>(dateOf: T -> string, parse: string -> Fallible<Instant>, now: Instant): T -> bool {
    x => parse(dateOf(x)).Returned? && parse(dateOf(x)).value > now
  }

  /** The pending/history split of the consultation screens: pending holds
      the appointments strictly after now, history the rest, both in the
      original order; the first unparsable date aborts with its exception. */
  function Split<T(!new)>(xs: seq<T>, dateOf: T -> string, parse: string -> Fallible<Instant>, now: Instant): (r: Fallible<(seq<T>, seq<T>)>)
    ensures r.Thrown? <==> exists i :: 0 <= i < |xs| && parse(dateOf(xs[i])).Thrown?
    ensures r.Thrown? ==> exists i :: 0 <= i < |xs| && parse(dateOf(xs[i])) == Thrown(r.message)
                                    && forall j :: 0 <= j < i ==> parse(dateOf(xs[j])).Returned?
    ensures r.Returned? ==> multiset(r.value.0) + multiset(r.value.1) == multiset(xs)
    ensures r.Returned? ==> forall x :: x in r.value.0 <==> x in xs && parse(dateOf(x)).Returned? && parse(dateOf(x)).value > now
    ensures r.Returned? ==> forall x :: x in r.value.1 <==> x in xs && parse(dateOf(x)).Returned? && parse(dateOf(x)).value <= now
  {
    match FirstParseFailure(xs, dateOf, parse)
    case Some(m) => Thrown(m)
    case None =>
      var p := IsPending(dateOf, parse, now);
      FilterPartitions(xs, p);
      Returned((Filter(xs, p), Filter(xs, Not(p))))
  }

  /** Both halves of the split keep the original order: splitting a list
      split in two is splitting each part and concatenating. */
  lemma SplitKeepsOrder<T(!new)>(a: seq<T>, b: seq<T>, dateOf: T -> string, parse: string -> Fallible<Instant>, now: Instant)
    requires Split(a + b, dateOf, parse, now).Returned?
    ensures Split(a, dateOf, parse, now).Returned? && Split(b, dateOf, parse, now).Returned?
    ensures Split(a + b, dateOf, parse, now).value.0 == Split(a, dateOf, parse, now).value.0 + Split(b, dateOf, parse, now).value.0
    ensures Split(a + b, dateOf, parse, now).value.1 == Split(a, dateOf, parse, now).value.1 + Split(b, dateOf, parse, now).value.1
  {
    forall i | 0 <= i < |a| ensures parse(dateOf(a[i])).Returned? {
      assert (a + b)[i] == a[i];
    }
    forall i | 0 <= i < |b| ensures parse(dateOf(b[i])).Returned? {
      assert (a + b)[|a| + i] == b[i];
    }
    var p := IsPending(dateOf, parse, now);
    FilterKeepsOrder(a, b, p);
    FilterKeepsOrder(a, b, Not(p));
  }
}
