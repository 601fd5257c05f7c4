/**
 * How `MockedCurrent.add` turns its arguments into the instant it queues:
 * either a ready-made `datetime` (first positional), or seven components
 * each taken from an integer keyword, else from the integer positionals in
 * order, else from a default.
 */
module Arguments {
  import opened Wrappers
  import Calendar
  import opened Zones

  /** A positional or keyword argument: an int, a `datetime`, a `tzinfo` or None. */
  datatype Arg = IntArg(n: int) | DateTimeArg(dt: DateTime) | TzArg(tz: TzInfo) | NoneArg

  const ComponentNames: seq<string> := ["year", "month", "day", "hour", "minute", "second", "microsecond"]
  const ComponentDefaults: seq<int> := [2001, 1, 1, 0, 0, 0, 0]

  /** The integer positionals, in order (`int_args`). */
  function IntArgs(args: seq<Arg>): (r: seq<int>)
    ensures |r| <= |args|
    ensures forall n :: n in r <==> IntArg(n) in args
  {
    if args == [] then []
    else (if args[0].IntArg? then [args[0].n] else []) + IntArgs(args[1..])
  }

  /** Component `i` (0 = year ... 6 = microsecond). */
  function Component(i: nat, ints: seq<int>, kw: map<string, Arg>): int
    requires i < 7
  {
    var name := ComponentNames[i];
    if name in kw && kw[name].IntArg? then kw[name].n
    else if i < |ints| then ints[i]
    else ComponentDefaults[i]
  }

  /** The components `datetime(...)` is called with. */
  function ResolveComponents(args: seq<Arg>, kw: map<string, Arg>): Calendar.Components {
    var ints := IntArgs(args);
    Calendar.Components(
      Component(0, ints, kw), Component(1, ints, kw), Component(2, ints, kw),
      Component(3, ints, kw), Component(4, ints, kw), Component(5, ints, kw),
      Component(6, ints, kw))
  }

  /** True when `add` takes its first positional as the instant itself. */
  predicate TakesInstance(args: seq<Arg>) {
    |args| > 0 && args[0].DateTimeArg?
  }

  /** The naive instant `add` appends, or the ValueError it raises first.
      A ready-made instant is refused when it is aware and its zone is not
      the configured one; otherwise its zone is dropped. Components are
      refused when `datetime(...)` would refuse them. */
  function AddedInstance(args: seq<Arg>, kw: map<string, Arg>, configured: Option<TzInfo>): (r: Result<int>)
    ensures TakesInstance(args) ==>
              (r.Err? <==> args[0].dt.tzinfo.Some? && args[0].dt.tzinfo != configured)
              && (r.Ok? ==> r.value == args[0].dt.wall)
    ensures !TakesInstance(args) ==>
              (r.Ok? <==> Calendar.Valid(ResolveComponents(args, kw)))
              && (r.Ok? ==> r.value == Calendar.ToMicros(ResolveComponents(args, kw)))
    ensures r.Err? ==> r.error == (if TakesInstance(args) then TzInfoMismatch else ComponentOutOfRange)
  {
    if TakesInstance(args) then
      var instance := args[0].dt;
      if instance.tzinfo.Some? && instance.tzinfo != configured then Err(TzInfoMismatch)
      else Ok(instance.wall)
    else
      var c := ResolveComponents(args, kw);
      if Calendar.Valid(c) then Ok(Calendar.ToMicros(c)) else Err(ComponentOutOfRange)
  }

  /** Integers passed as positionals. */
  function AsIntArgs(ns: seq<int>): (r: seq<Arg>)
    ensures |r| == |ns|
  {
    seq(|ns|, i requires 0 <= i < |ns| => IntArg(ns[i]))
  }

  /** The fields of a tuple in constructor order. */
  function Fields(c: Calendar.Components): seq<int> {
    [c.year, c.month, c.day, c.hour, c.minute, c.second, c.microsecond]
  }

  /** The components as integer positionals, `(year, ..., microsecond)`. */
  function AsPositionals(c: Calendar.Components): seq<Arg> {
    AsIntArgs(Fields(c))
  }

  /** The components as integer keywords, `year=..., ..., microsecond=...`. */
  function AsKeywords(c: Calendar.Components): map<string, Arg> {
    map["year" := IntArg(c.year), "month" := IntArg(c.month), "day" := IntArg(c.day),
        "hour" := IntArg(c.hour), "minute" := IntArg(c.minute), "second" := IntArg(c.second),
        "microsecond" := IntArg(c.microsecond)]
  }

  /** Only the integer positionals, in order. */
  function OnlyInts(args: seq<Arg>): seq<Arg> {
    AsIntArgs(IntArgs(args))
  }

  /** Only the keywords that name a component and carry an integer. */
  function OnlyIntComponents(kw: map<string, Arg>): map<string, Arg> {
    map name | name in kw && name in ComponentNames && kw[name].IntArg? :: kw[name]
  }

  lemma {:induction false} IntArgsAppend(a: seq<Arg>, b: seq<Arg>)
    ensures IntArgs(a + b) == IntArgs(a) + IntArgs(b)
    decreases |a|
  {
    if a == [] {
      assert a + b == b;
    } else {
      assert (a + b)[0] == a[0];
      assert (a + b)[1..] == a[1..] + b;
      IntArgsAppend(a[1..], b);
    }
  }

  lemma {:induction false} IntArgsOfInts(ns: seq<int>)
    ensures IntArgs(AsIntArgs(ns)) == ns
    decreases |ns|
  {
    if ns != [] {
      assert AsIntArgs(ns)[1..] == AsIntArgs(ns[1..]);
      IntArgsOfInts(ns[1..]);
    }
  }

  /** Component `i` only looks at integer keywords named after a component. */
  lemma ComponentSeesIntKeywords(i: nat, ints: seq<int>, kw: map<string, Arg>)
    requires i < 7
    ensures Component(i, ints, kw) == Component(i, ints, OnlyIntComponents(kw))
  {
    assert ComponentNames[i] in ComponentNames;
  }

  /** Passing the components positionally gives them back. */
  lemma PositionalsRoundTrip(c: Calendar.Components)
    ensures ResolveComponents(AsPositionals(c), map[]) == c
  {
    IntArgsOfInts(Fields(c));
  }

  /** Integer keywords beat positionals: with all seven keywords given, the
      components are the keywords' and the positionals play no part. */
  lemma KeywordsOverridePositionals(args: seq<Arg>, c: Calendar.Components)
    ensures ResolveComponents(args, AsKeywords(c)) == c
  {
    var ints, kw := IntArgs(args), AsKeywords(c);
    assert Component(0, ints, kw) == c.year by { KeywordComponent(0, ints, c); }
    assert Component(1, ints, kw) == c.month by { KeywordComponent(1, ints, c); }
    assert Component(2, ints, kw) == c.day by { KeywordComponent(2, ints, c); }
    assert Component(3, ints, kw) == c.hour by { KeywordComponent(3, ints, c); }
    assert Component(4, ints, kw) == c.minute by { KeywordComponent(4, ints, c); }
    assert Component(5, ints, kw) == c.second by { KeywordComponent(5, ints, c); }
    assert Component(6, ints, kw) == c.microsecond by { KeywordComponent(6, ints, c); }
  }

  lemma KeywordComponent(i: nat, ints: seq<int>, c: Calendar.Components)
    requires i < 7
    ensures Component(i, ints, AsKeywords(c)) == Fields(c)[i]
  {
    assert ComponentNames[i] in AsKeywords(c);
  }

  /** Arguments that are not integers (a `tzinfo`, a later `datetime`, None)
      and keywords that are not component names or not integers are ignored. */
  lemma OnlyIntComponentsMatter(args: seq<Arg>, kw: map<string, Arg>)
    ensures ResolveComponents(args, kw) == ResolveComponents(OnlyInts(args), OnlyIntComponents(kw))
  {
    var ints := IntArgs(args);
    IntArgsOfInts(ints);
    ComponentSeesIntKeywords(0, ints, kw);
    ComponentSeesIntKeywords(1, ints, kw);
    ComponentSeesIntKeywords(2, ints, kw);
    ComponentSeesIntKeywords(3, ints, kw);
    ComponentSeesIntKeywords(4, ints, kw);
    ComponentSeesIntKeywords(5, ints, kw);
    ComponentSeesIntKeywords(6, ints, kw);
  }

  /** Inserting a non-integer positional anywhere changes none of the seven
      components (a `datetime` inserted first would switch `add` to its
      instance path, which `AddedInstance` states). */
  lemma NonIntPositionalIgnored(before: seq<Arg>, x: Arg, after: seq<Arg>, kw: map<string, Arg>)
    requires !x.IntArg?
    ensures ResolveComponents(before + [x] + after, kw) == ResolveComponents(before + after, kw)
  {
    IntArgsAppend(before + [x], after);
    IntArgsAppend(before, [x]);
    IntArgsAppend(before, after);
    assert IntArgs([x]) == [];
  }

  /** Appending components positionally queues the instant they denote,
      and that instant determines them: no two valid tuples queue the same
      instant. */
  lemma AddedComponentsDetermineInstant(c: Calendar.Components, d: Calendar.Components, zone: Option<TzInfo>)
    requires Calendar.Valid(c)
    ensures AddedInstance(AsPositionals(c), map[], zone) == Ok(Calendar.ToMicros(c))
    ensures AddedInstance(AsPositionals(d), map[], zone) == AddedInstance(AsPositionals(c), map[], zone) ==> d == c
  {
    PositionalsRoundTrip(c);
    PositionalsRoundTrip(d);
    if d != c && Calendar.Valid(d) {
      Calendar.ToMicrosInjective(c, d);
    }
  }
}
