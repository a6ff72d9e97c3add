/**
 * The credit policy engine: validates a configuration, then says how many whole credits a service of a
 * given distance costs under it.
 *
 * A number of the original is a real here, so that values that are not integers are seen and refused as
 * the original refuses them; NaN and the infinities are not numbers of this model.
 */
module CreditPolicyEngine {
  import opened Common

  const MAX_POLICY_CREDITS := 1_000_000
  const MAX_DISTANCE_METERS := 2_147_483_647
  const MAX_POLICY_RANGES := 50
  const MAX_SAFE_INTEGER := 9_007_199_254_740_991

  datatype CalculationType = PER_KM | FLAT | DISTANCE_RANGE | UNKNOWN_TYPE

  /** [min, max) in metres; no max means "and beyond". */
  datatype Range = Range(min: real, max: Option<real>, credits: real)
  datatype PlacedRange = PlacedRange(range: Range, position: nat)

  datatype Config = Config(
    calculationType: CalculationType, creditsPerKm: Option<real>, minimumCredits: Option<real>,
    flatCredits: Option<real>, ranges: Option<seq<Range>>)

  datatype ConfigError =
    | CREDITS_PER_KM_INVALID | MINIMUM_CREDITS_INVALID | FLAT_CREDITS_INVALID | NOT_ALLOWED(field: string)
    | RANGES_REQUIRED | TYPE_INVALID | TOO_MANY_RANGES | MIN_INVALID(r: Range) | MAX_INVALID(r: Range)
    | MAX_NOT_GREATER(r: Range) | RANGE_CREDITS_INVALID(r: Range) | FIRST_NOT_AT_ZERO(r: Range)
    | LAST_NOT_OPEN(r: Range) | OPEN_BEFORE_LAST(r: Range) | GAP(from: real, to: real)
    | OVERLAP(previous: Range, r: Range) | SAME_START(at: real)

  predicate IsSafeInteger(v: real) {
    v == v.Floor as real && -MAX_SAFE_INTEGER <= v.Floor <= MAX_SAFE_INTEGER
  }

  predicate IsCredits(v: real, min: int) { IsSafeInteger(v) && min <= v.Floor <= MAX_POLICY_CREDITS }

  predicate SomeCredits(v: Option<real>, min: int) { v.Some? && IsCredits(v.value, min) }

  // ---------------------------------------------------------------- ranges

  function Insert(sorted: seq<Range>, r: Range): seq<Range> {
    var n := |sorted| - 1;
    if sorted == [] || sorted[n].min <= r.min then sorted + [r] else Insert(sorted[..n], r) + [sorted[n]]
  }

  /** A stable sort by where each range starts. */
  function SortByMin(rs: seq<Range>): seq<Range> {
    if rs == [] then [] else Insert(SortByMin(rs[..|rs| - 1]), rs[|rs| - 1])
  }

  predicate SortedByMin(rs: seq<Range>) { forall i, j :: 0 <= i < j < |rs| ==> rs[i].min <= rs[j].min }

  function Push(errors: seq<ConfigError>, wrong: bool, e: ConfigError): (r: seq<ConfigError>)
    ensures r == [] <==> errors == [] && !wrong
  {
    if wrong then errors + [e] else errors
  }

  predicate MinOk(r: Range) { IsSafeInteger(r.min) && 0.0 <= r.min <= MAX_DISTANCE_METERS as real }
  predicate MaxOk(max: real) { IsSafeInteger(max) && max <= MAX_DISTANCE_METERS as real }

  predicate OwnFieldsOk(r: Range) {
    MinOk(r) && IsCredits(r.credits, 1) && (r.max.Some? ==> MaxOk(r.max.value) && r.min < r.max.value)
  }

  /** Pushes what is wrong with one range by itself. */
  function OwnErrors(errors: seq<ConfigError>, r: Range): (after: seq<ConfigError>)
    ensures after == [] <==> errors == [] && OwnFieldsOk(r)
  {
    var a := Push(errors, !MinOk(r), MIN_INVALID(r));
    var b := if r.max.None? then a
             else if !MaxOk(r.max.value) then a + [MAX_INVALID(r)]
             else Push(a, r.max.value <= r.min, MAX_NOT_GREATER(r));
    Push(b, !IsCredits(r.credits, 1), RANGE_CREDITS_INVALID(r))
  }

  /** The first starts at 0, only the last is open, and each starts where the previous one ends. */
  predicate PlaceOk(rs: seq<Range>, i: nat)
    requires i < |rs|
  {
    && (i == 0 ==> rs[i].min == 0.0)
    && (rs[i].max.None? <==> i == |rs| - 1)
    && (i > 0 ==> rs[i].min != rs[i - 1].min && (rs[i - 1].max.Some? ==> rs[i].min == rs[i - 1].max.value))
  }

  /** Pushes what is wrong with the place of a range among the others. */
  function PlaceErrors(errors: seq<ConfigError>, rs: seq<Range>, i: nat): (after: seq<ConfigError>)
    requires i < |rs|
    ensures after == [] <==> errors == [] && PlaceOk(rs, i)
  {
    var r, last := rs[i], i == |rs| - 1;
    var a := Push(errors, i == 0 && r.min != 0.0, FIRST_NOT_AT_ZERO(r));
    var b := Push(a, last && r.max.Some?, LAST_NOT_OPEN(r));
    var c := Push(b, !last && r.max.None?, OPEN_BEFORE_LAST(r));
    if i == 0 then c
    else
      var previous := rs[i - 1];
      var d := if previous.max.None? then c
               else if r.min > previous.max.value then c + [GAP(previous.max.value, r.min)]
               else Push(c, r.min < previous.max.value, OVERLAP(previous, r));
      Push(d, r.min == previous.min, SAME_START(r.min))
  }

  function ErrorsUpTo(errors: seq<ConfigError>, rs: seq<Range>, n: nat): (after: seq<ConfigError>)
    requires n <= |rs|
    ensures after == [] <==> errors == [] && forall i :: 0 <= i < n ==> OwnFieldsOk(rs[i]) && PlaceOk(rs, i)
  {
    if n == 0 then errors else PlaceErrors(OwnErrors(ErrorsUpTo(errors, rs, n - 1), rs[n - 1]), rs, n - 1)
  }

  function RangeErrors(errors: seq<ConfigError>, input: seq<Range>): seq<ConfigError> {
    ErrorsUpTo(Push(errors, |input| > MAX_POLICY_RANGES, TOO_MANY_RANGES), SortByMin(input), |SortByMin(input)|)
  }

  predicate Accepted(input: seq<Range>) { RangeErrors([], input) == [] }

  function Placed(rs: seq<Range>): (r: seq<PlacedRange>)
    ensures |r| == |rs| && forall i :: 0 <= i < |r| ==> r[i] == PlacedRange(rs[i], i + 1)
  {
    seq(|rs|, i requires 0 <= i < |rs| => PlacedRange(rs[i], i + 1))
  }

  /** Every error of every range is pushed in order; the ranges come back sorted and numbered from 1. */
  method ValidateRanges(input: seq<Range>, before: seq<ConfigError>) returns (errors: seq<ConfigError>, ranges: seq<PlacedRange>)
    ensures errors == RangeErrors(before, input)
    ensures ranges == Placed(SortByMin(input))
  {
    errors := before;
    if |input| > MAX_POLICY_RANGES { errors := errors + [TOO_MANY_RANGES]; }
    ghost var start := errors;
    var sorted := SortByMin(input);
    for i := 0 to |sorted|
      invariant errors == ErrorsUpTo(start, sorted, i)
    {
      errors := CheckRange(errors, sorted, i);
    }
    ranges := Placed(sorted);
  }

  method CheckRange(before: seq<ConfigError>, sorted: seq<Range>, i: nat) returns (errors: seq<ConfigError>)
    requires i < |sorted|
    ensures errors == PlaceErrors(OwnErrors(before, sorted[i]), sorted, i)
  {
    errors := before;
    var r := sorted[i];
    var last := i == |sorted| - 1;
    if !MinOk(r) { errors := errors + [MIN_INVALID(r)]; }
    if r.max.Some? {
      if !MaxOk(r.max.value) { errors := errors + [MAX_INVALID(r)]; }
      else if r.max.value <= r.min { errors := errors + [MAX_NOT_GREATER(r)]; }
    }
    if !IsCredits(r.credits, 1) { errors := errors + [RANGE_CREDITS_INVALID(r)]; }
    if i == 0 && r.min != 0.0 { errors := errors + [FIRST_NOT_AT_ZERO(r)]; }
    if last && r.max.Some? { errors := errors + [LAST_NOT_OPEN(r)]; }
    if !last && r.max.None? { errors := errors + [OPEN_BEFORE_LAST(r)]; }
    if i > 0 {
      var previous := sorted[i - 1];
      if previous.max.Some? {
        if r.min > previous.max.value { errors := errors + [GAP(previous.max.value, r.min)]; }
        else if r.min < previous.max.value { errors := errors + [OVERLAP(previous, r)]; }
      }
      if r.min == previous.min { errors := errors + [SAME_START(r.min)]; }
    }
  }

  // ---------------------------------------------------------------- configurations

  predicate HasRanges(c: Config) { c.ranges.Some? && c.ranges.value != [] }

  function PerKmErrors(c: Config): seq<ConfigError> {
    var a := Push([], !SomeCredits(c.creditsPerKm, 1), CREDITS_PER_KM_INVALID);
    var b := Push(a, !SomeCredits(c.minimumCredits, 0), MINIMUM_CREDITS_INVALID);
    Push(Push(b, c.flatCredits.Some?, NOT_ALLOWED("flatCredits")), HasRanges(c), NOT_ALLOWED("ranges"))
  }

  function FlatErrors(c: Config): seq<ConfigError> {
    var a := Push([], !SomeCredits(c.flatCredits, 1), FLAT_CREDITS_INVALID);
    var b := Push(a, c.creditsPerKm.Some?, NOT_ALLOWED("creditsPerKm"));
    Push(Push(b, c.minimumCredits.Some?, NOT_ALLOWED("minimumCredits")), HasRanges(c), NOT_ALLOWED("ranges"))
  }

  function DistanceErrors(c: Config): seq<ConfigError> {
    var a := Push([], c.creditsPerKm.Some?, NOT_ALLOWED("creditsPerKm"));
    var b := Push(a, c.minimumCredits.Some?, NOT_ALLOWED("minimumCredits"));
    var d := Push(b, c.flatCredits.Some?, NOT_ALLOWED("flatCredits"));
    if !HasRanges(c) then d + [RANGES_REQUIRED] else RangeErrors(d, c.ranges.value)
  }

  function ConfigErrors(c: Config): seq<ConfigError> {
    match c.calculationType
    case PER_KM => PerKmErrors(c)
    case FLAT => FlatErrors(c)
    case DISTANCE_RANGE => DistanceErrors(c)
    case UNKNOWN_TYPE => [TYPE_INVALID]
  }

  function ValidRanges(c: Config): seq<PlacedRange> {
    if c.calculationType.DISTANCE_RANGE? && HasRanges(c) then Placed(SortByMin(c.ranges.value)) else []
  }

  method ValidatePolicyConfig(c: Config) returns (valid: bool, errors: seq<ConfigError>, ranges: seq<PlacedRange>)
    ensures errors == ConfigErrors(c) && ranges == ValidRanges(c)
    ensures valid <==> errors == []
  {
    errors, ranges := [], [];
    var hasRanges := HasRanges(c);
    match c.calculationType {
      case PER_KM =>
        if !SomeCredits(c.creditsPerKm, 1) { errors := errors + [CREDITS_PER_KM_INVALID]; }
        if !SomeCredits(c.minimumCredits, 0) { errors := errors + [MINIMUM_CREDITS_INVALID]; }
        if c.flatCredits.Some? { errors := errors + [NOT_ALLOWED("flatCredits")]; }
        if hasRanges { errors := errors + [NOT_ALLOWED("ranges")]; }
      case FLAT =>
        if !SomeCredits(c.flatCredits, 1) { errors := errors + [FLAT_CREDITS_INVALID]; }
        if c.creditsPerKm.Some? { errors := errors + [NOT_ALLOWED("creditsPerKm")]; }
        if c.minimumCredits.Some? { errors := errors + [NOT_ALLOWED("minimumCredits")]; }
        if hasRanges { errors := errors + [NOT_ALLOWED("ranges")]; }
      case DISTANCE_RANGE =>
        if c.creditsPerKm.Some? { errors := errors + [NOT_ALLOWED("creditsPerKm")]; }
        if c.minimumCredits.Some? { errors := errors + [NOT_ALLOWED("minimumCredits")]; }
        if c.flatCredits.Some? { errors := errors + [NOT_ALLOWED("flatCredits")]; }
        if !hasRanges { errors := errors + [RANGES_REQUIRED]; }
      case UNKNOWN_TYPE => errors := errors + [TYPE_INVALID];
    }
    if c.calculationType.DISTANCE_RANGE? && hasRanges {
      errors, ranges := ValidateRanges(c.ranges.value, errors);
    }
    valid := errors == [];
  }

  // ---------------------------------------------------------------- cost

  predicate Contains(r: Range, d: real) { d >= r.min && (r.max.None? || d < r.max.value) }

  function Matches(rs: seq<PlacedRange>, d: real): seq<PlacedRange> {
    if rs == [] then []
    else
      var rest, last := Matches(rs[..|rs| - 1], d), rs[|rs| - 1];
      if Contains(last.range, d) then rest + [last] else rest
  }

  /** The range that contains the distance, provided exactly one does. */
  function FindRange(rs: seq<PlacedRange>, d: real): Option<PlacedRange> {
    var matches := Matches(rs, d);
    if |matches| == 1 then Some(matches[0]) else None
  }

  /** The exact ceiling of metres over a thousand. */
  function BillableKilometers(d: nat): (km: nat)
    ensures (km as int - 1) * 1000 < d <= km * 1000
    ensures km == 0 <==> d == 0
  {
    var remainder := d % 1000;
    (d - remainder) / 1000 + if remainder == 0 then 0 else 1
  }

  datatype CostError = CREDIT_DISTANCE_INVALID | CREDIT_POLICY_UNAVAILABLE | CREDIT_COST_OUT_OF_RANGE
  datatype Cost = Cost(
    credits: int, billableKm: Option<nat>, calculatedCredits: Option<int>, minimumApplied: bool, rangePosition: Option<nat>)

  datatype Policy = Policy(
    calculationType: CalculationType, creditsPerKm: Option<real>, minimumCredits: Option<real>,
    flatCredits: Option<real>, ranges: seq<PlacedRange>)

  predicate CanonicalDistance(d: real) { IsSafeInteger(d) && 0 <= d.Floor <= MAX_DISTANCE_METERS }

  function Bounded(cost: Cost): Result<Cost, CostError> {
    if cost.credits > MAX_POLICY_CREDITS then Err(CREDIT_COST_OUT_OF_RANGE) else Ok(cost)
  }

  function CalculateCreditCost(p: Policy, d: real): (r: Result<Cost, CostError>)
    ensures r.Ok? ==> CanonicalDistance(d) && 0 <= r.value.credits <= MAX_POLICY_CREDITS
  {
    if !CanonicalDistance(d) then Err(CREDIT_DISTANCE_INVALID)
    else
      match p.calculationType
      case PER_KM =>
        if !SomeCredits(p.creditsPerKm, 1) || !SomeCredits(p.minimumCredits, 0) then Err(CREDIT_POLICY_UNAVAILABLE)
        else
          var km := BillableKilometers(d.Floor);
          var calculated, minimum := km * p.creditsPerKm.value.Floor, p.minimumCredits.value.Floor;
          Bounded(Cost(Max(calculated, minimum), Some(km), Some(calculated), calculated < minimum, None))
      case FLAT =>
        if !SomeCredits(p.flatCredits, 1) then Err(CREDIT_POLICY_UNAVAILABLE)
        else Bounded(Cost(p.flatCredits.value.Floor, None, None, false, None))
      case _ =>
        var found := FindRange(p.ranges, d);
        if found.None? || !IsCredits(found.value.range.credits, 1) then Err(CREDIT_POLICY_UNAVAILABLE)
        else Bounded(Cost(found.value.range.credits.Floor, None, None, false, Some(found.value.position)))
  }

  /** The policy row an accepted configuration becomes: only the fields of its own type are kept. */
  function PolicyOf(c: Config): Policy {
    var t := c.calculationType;
    Policy(t, if t.PER_KM? then c.creditsPerKm else None, if t.PER_KM? then c.minimumCredits else None,
           if t.FLAT? then c.flatCredits else None, ValidRanges(c))
  }

  // ---------------------------------------------------------------- accepted ranges partition every distance

  function Count(rs: seq<Range>, d: real): nat {
    if rs == [] then 0 else Count(rs[..|rs| - 1], d) + if Contains(rs[|rs| - 1], d) then 1 else 0
  }

  /** Every whole distance from 0 on lies in exactly one range. */
  ghost predicate Partition(rs: seq<Range>) { forall d: nat :: OnceAt(rs, d) }
  predicate OnceAt(rs: seq<Range>, d: nat) { Count(rs, d as real) == 1 }

  /** Contiguous from 0, each range ending where the next starts, only the last one open. */
  ghost predicate Contiguous(rs: seq<Range>) {
    && (rs != [] ==> rs[0].min == 0.0 && rs[|rs| - 1].max.None?)
    && forall i :: 0 <= i < |rs| - 1 ==> rs[i].max == Some(rs[i + 1].min)
  }

  lemma PlacedWell(rs: seq<Range>)
    requires forall i :: 0 <= i < |rs| ==> OwnFieldsOk(rs[i])
    ensures (forall i :: 0 <= i < |rs| ==> PlaceOk(rs, i)) <==> Contiguous(rs)
  {
    if forall i :: 0 <= i < |rs| ==> PlaceOk(rs, i) {
      forall i | 0 <= i < |rs| - 1 ensures rs[i].max == Some(rs[i + 1].min) {
        assert PlaceOk(rs, i) && PlaceOk(rs, i + 1);
      }
      if rs != [] { assert PlaceOk(rs, 0) && PlaceOk(rs, |rs| - 1); }
    }
    if Contiguous(rs) {
      forall i | 0 <= i < |rs| ensures PlaceOk(rs, i) {
        if i > 0 {
          assert rs[i - 1].max == Some(rs[i].min);
          assert OwnFieldsOk(rs[i - 1]);
        }
        if i < |rs| - 1 { assert rs[i].max == Some(rs[i + 1].min); }
      }
    }
  }

  /** The first n ranges of a contiguous list contain d once while d is before their end. */
  lemma {:induction false} PrefixCount(rs: seq<Range>, n: nat, d: real)
    requires Contiguous(rs) && n <= |rs| && 0.0 <= d
    requires forall i :: 0 <= i < |rs| && rs[i].max.Some? ==> rs[i].min < rs[i].max.value
    ensures Count(rs[..n], d) == if n > 0 && (rs[n - 1].max.None? || d < rs[n - 1].max.value) then 1 else 0
  {
    if n > 0 {
      PrefixCount(rs, n - 1, d);
      assert rs[..n][..n - 1] == rs[..n - 1];
      if n > 1 { assert rs[n - 2].max == Some(rs[n - 1].min); }
    }
  }

  lemma {:induction false} CountAt(rs: seq<Range>, i: nat, d: real)
    requires i < |rs| && Contains(rs[i], d)
    ensures Count(rs, d) >= 1
  {
    if i < |rs| - 1 { CountAt(rs[..|rs| - 1], i, d); }
  }

  lemma {:induction false} CountTwice(rs: seq<Range>, i: nat, j: nat, d: real)
    requires i < j < |rs| && Contains(rs[i], d) && Contains(rs[j], d)
    ensures Count(rs, d) >= 2
  {
    if j < |rs| - 1 { CountTwice(rs[..|rs| - 1], i, j, d); } else { CountAt(rs[..|rs| - 1], i, d); }
  }

  lemma {:induction false} CountNone(rs: seq<Range>, d: real)
    requires forall i :: 0 <= i < |rs| ==> !Contains(rs[i], d)
    ensures Count(rs, d) == 0
  {
    if rs != [] { CountNone(rs[..|rs| - 1], d); }
  }

  /** In a sorted partition no range but the last is open, and none reaches past the next one's start. */
  lemma NoOverlap(rs: seq<Range>, i: nat)
    requires SortedByMin(rs) && Partition(rs) && i + 1 < |rs| && forall k :: 0 <= k < |rs| ==> OwnFieldsOk(rs[k])
    ensures rs[i].max.Some? && rs[i].max.value <= rs[i + 1].min
  {
    var d := rs[i + 1].min;
    assert OwnFieldsOk(rs[i + 1]);
    assert OnceAt(rs, d.Floor);
    if Contains(rs[i], d) { CountTwice(rs, i, i + 1, d); }
  }

  lemma {:induction false} EndsBeforeLaterStarts(rs: seq<Range>, j: nat, i: nat)
    requires SortedByMin(rs) && Partition(rs) && j < i < |rs| && forall k :: 0 <= k < |rs| ==> OwnFieldsOk(rs[k])
    ensures rs[j].max.Some? && rs[j].max.value <= rs[i].min
  {
    NoOverlap(rs, j);
  }

  lemma NoGap(rs: seq<Range>, i: nat)
    requires SortedByMin(rs) && Partition(rs) && i + 1 < |rs| && forall k :: 0 <= k < |rs| ==> OwnFieldsOk(rs[k])
    ensures rs[i].max == Some(rs[i + 1].min)
  {
    NoOverlap(rs, i);
    var d := rs[i].max.value;
    assert OwnFieldsOk(rs[i]);
    assert OnceAt(rs, d.Floor);
    if d < rs[i + 1].min {
      forall j | 0 <= j < |rs| ensures !Contains(rs[j], d) {
        if j < i { EndsBeforeLaterStarts(rs, j, i); }
      }
      CountNone(rs, d);
    }
  }

  lemma PartitionIsContiguous(rs: seq<Range>)
    requires SortedByMin(rs) && Partition(rs) && forall k :: 0 <= k < |rs| ==> OwnFieldsOk(rs[k])
    ensures rs != [] && Contiguous(rs)
  {
    assert OnceAt(rs, 0) && OnceAt(rs, MAX_DISTANCE_METERS);
    forall i | 0 <= i < |rs| - 1 ensures rs[i].max == Some(rs[i + 1].min) { NoGap(rs, i); }
    assert OwnFieldsOk(rs[0]);
    if rs[0].min > 0.0 { CountNone(rs, 0.0); }
    var n := |rs| - 1;
    if rs[n].max.Some? {
      forall j | 0 <= j < |rs| ensures !Contains(rs[j], MAX_DISTANCE_METERS as real) {
        assert OwnFieldsOk(rs[j]);
        if j < n { assert rs[j].max == Some(rs[j + 1].min); }
      }
      CountNone(rs, MAX_DISTANCE_METERS as real);
    }
  }

  lemma {:induction false} InsertElements(sorted: seq<Range>, r: Range)
    ensures multiset(Insert(sorted, r)) == multiset(sorted) + multiset{r}
  {
    var n := |sorted| - 1;
    if !(sorted == [] || sorted[n].min <= r.min) {
      InsertElements(sorted[..n], r);
      assert sorted == sorted[..n] + [sorted[n]];
    }
  }

  lemma AppendSorts(rs: seq<Range>, r: Range)
    requires SortedByMin(rs) && (rs == [] || rs[|rs| - 1].min <= r.min)
    ensures SortedByMin(rs + [r])
  {}

  lemma {:induction false} InsertSorts(sorted: seq<Range>, r: Range)
    requires SortedByMin(sorted)
    ensures var after := Insert(sorted, r);
            && SortedByMin(after) && |after| == |sorted| + 1
            && after[|sorted|].min == if sorted == [] || sorted[|sorted| - 1].min <= r.min then r.min else sorted[|sorted| - 1].min
  {
    var n := |sorted| - 1;
    if sorted == [] {
      assert Insert(sorted, r) == [r];
    } else if sorted[n].min <= r.min {
      AppendSorts(sorted, r);
    } else {
      InsertSorts(sorted[..n], r);
      AppendSorts(Insert(sorted[..n], r), sorted[n]);
    }
  }

  lemma {:induction false} InsertCounts(sorted: seq<Range>, r: Range, d: real)
    ensures Count(Insert(sorted, r), d) == Count(sorted, d) + if Contains(r, d) then 1 else 0
  {
    var n := |sorted| - 1;
    if sorted == [] || sorted[n].min <= r.min {
      assert (sorted + [r])[..|sorted|] == sorted;
    } else {
      var rest := Insert(sorted[..n], r);
      InsertCounts(sorted[..n], r, d);
      assert (rest + [sorted[n]])[..|rest|] == rest;
    }
  }

  lemma {:induction false} SortElements(rs: seq<Range>)
    ensures multiset(SortByMin(rs)) == multiset(rs) && |SortByMin(rs)| == |rs|
  {
    if rs != [] {
      SortElements(rs[..|rs| - 1]);
      InsertElements(SortByMin(rs[..|rs| - 1]), rs[|rs| - 1]);
      assert rs == rs[..|rs| - 1] + [rs[|rs| - 1]];
      assert |multiset(SortByMin(rs))| == |multiset(rs)|;
    }
  }

  lemma {:induction false} SortSorts(rs: seq<Range>)
    ensures SortedByMin(SortByMin(rs))
  {
    if rs != [] {
      SortSorts(rs[..|rs| - 1]);
      InsertSorts(SortByMin(rs[..|rs| - 1]), rs[|rs| - 1]);
    }
  }

  lemma {:induction false} SortCounts(rs: seq<Range>, d: real)
    ensures Count(SortByMin(rs), d) == Count(rs, d)
  {
    if rs != [] {
      SortCounts(rs[..|rs| - 1], d);
      InsertCounts(SortByMin(rs[..|rs| - 1]), rs[|rs| - 1], d);
    }
  }

  /** Sorting loses, adds and changes nothing. */
  lemma SortKeeps(rs: seq<Range>, d: real)
    ensures SortedByMin(SortByMin(rs)) && multiset(SortByMin(rs)) == multiset(rs) && |SortByMin(rs)| == |rs|
    ensures Count(SortByMin(rs), d) == Count(rs, d)
  {
    SortElements(rs);
    SortSorts(rs);
    SortCounts(rs, d);
  }

  /**
   * Ranges sent in any order are accepted exactly when there are 1 to 50 of them, each is well formed by
   * itself, and together they put every distance in exactly one range.
   */
  lemma AcceptedIffPartition(input: seq<Range>)
    requires input != []
    ensures Accepted(input) <==>
              |input| <= MAX_POLICY_RANGES && (forall i :: 0 <= i < |input| ==> OwnFieldsOk(input[i])) && Partition(input)
  {
    var rs := SortByMin(input);
    SortKeeps(input, 0.0);
    SameElements(input, rs);
    if Accepted(input) { AcceptedPartitions(input); }
    if (forall i :: 0 <= i < |input| ==> OwnFieldsOk(input[i])) && Partition(input) {
      forall d: nat ensures OnceAt(rs, d) {
        SortKeeps(input, d as real);
        assert OnceAt(input, d);
      }
      PartitionIsContiguous(rs);
      PlacedWell(rs);
    }
  }

  lemma AcceptedPartitions(input: seq<Range>)
    requires input != [] && Accepted(input)
    ensures Partition(input) && Contiguous(SortByMin(input))
    ensures forall d: real :: 0.0 <= d ==> Count(SortByMin(input), d) == 1
  {
    var rs := SortByMin(input);
    PlacedWell(rs);
    forall d: real | 0.0 <= d ensures Count(rs, d) == 1 {
      SortKeeps(input, d);
      PrefixCount(rs, |rs|, d);
      assert rs[..|rs|] == rs;
    }
    forall d: nat ensures OnceAt(input, d) {
      SortKeeps(input, d as real);
      assert Count(rs, d as real) == 1;
    }
  }

  lemma SameElements(a: seq<Range>, b: seq<Range>)
    requires multiset(a) == multiset(b)
    ensures (forall i :: 0 <= i < |a| ==> OwnFieldsOk(a[i])) <==> (forall i :: 0 <= i < |b| ==> OwnFieldsOk(b[i]))
  {
    forall i | 0 <= i < |a| ensures a[i] in b { assert a[i] in multiset(b); }
    forall i | 0 <= i < |b| ensures b[i] in a { assert b[i] in multiset(a); }
  }

  // ---------------------------------------------------------------- the cost is a total function

  lemma {:induction false} MatchesCount(rs: seq<Range>, ps: seq<PlacedRange>, d: real)
    requires |ps| == |rs| && forall i :: 0 <= i < |rs| ==> ps[i].range == rs[i]
    ensures |Matches(ps, d)| == Count(rs, d)
    ensures forall m :: m in Matches(ps, d) ==> m in ps && Contains(m.range, d)
  {
    if rs != [] { MatchesCount(rs[..|rs| - 1], ps[..|ps| - 1], d); }
  }

  /** When exactly one range contains the distance, it is the one found, and the only one. */
  lemma FindRangeFinds(rs: seq<Range>, d: real)
    requires Count(rs, d) == 1
    ensures var found := FindRange(Placed(rs), d);
            && found.Some? && found.value in Placed(rs) && Contains(found.value.range, d)
            && (forall i :: 0 <= i < |rs| && Contains(rs[i], d) ==> rs[i] == found.value.range)
  {
    MatchesCount(rs, Placed(rs), d);
    var found := FindRange(Placed(rs), d).value;
    assert found in Matches(Placed(rs), d);
    var m :| 0 <= m < |rs| && Placed(rs)[m] == found;
    forall i | 0 <= i < |rs| && Contains(rs[i], d) ensures rs[i] == found.range {
      if i < m { CountTwice(rs, i, m, d); } else if m < i { CountTwice(rs, m, i, d); }
    }
  }

  /** Accepted ranges answer for every distance with the one range that contains it, in any order sent. */
  lemma FindRangeIsTotal(input: seq<Range>, d: real)
    requires input != [] && Accepted(input) && 0.0 <= d
    ensures var found := FindRange(Placed(SortByMin(input)), d);
            && found.Some? && found.value.range in input && Contains(found.value.range, d)
            && OwnFieldsOk(found.value.range)
            && (forall i :: 0 <= i < |input| && Contains(input[i], d) ==> input[i] == found.value.range)
  {
    var rs := SortByMin(input);
    SortKeeps(input, d);
    AcceptedPartitions(input);
    FindRangeFinds(rs, d);
    var found := FindRange(Placed(rs), d).value;
    assert found.range in multiset(input) by { assert found.range in multiset(rs); }
    forall i | 0 <= i < |input| && Contains(input[i], d) ensures input[i] == found.range {
      assert input[i] in multiset(rs);
    }
  }

  /**
   * Under an accepted configuration the only refusals are a distance that is no distance and a PER_KM
   * product above the limit; the cost is whole and inside the limits, at least 1 unless it is PER_KM with
   * minimum 0 at distance 0.
   */
  lemma CostNeverFindsCorruption(c: Config, d: real)
    requires ConfigErrors(c) == []
    ensures var r := CalculateCreditCost(PolicyOf(c), d);
            && (r == Err(CREDIT_DISTANCE_INVALID) <==> !CanonicalDistance(d))
            && r != Err(CREDIT_POLICY_UNAVAILABLE)
            && (r == Err(CREDIT_COST_OUT_OF_RANGE) <==>
                  CanonicalDistance(d) && c.calculationType.PER_KM?
                  && BillableKilometers(d.Floor) * c.creditsPerKm.value.Floor > MAX_POLICY_CREDITS)
            && (r.Ok? ==>
                  && 0 <= r.value.credits <= MAX_POLICY_CREDITS
                  && (r.value.credits == 0 <==> c.calculationType.PER_KM? && c.minimumCredits.value.Floor == 0 && d.Floor == 0))
  {
    if CanonicalDistance(d) {
      match c.calculationType
      case PER_KM => PerKmCosts(c, d);
      case FLAT => FlatCosts(c, d);
      case DISTANCE_RANGE => RangeCosts(c, d);
      case UNKNOWN_TYPE =>
    }
  }

  lemma PerKmCosts(c: Config, d: real)
    requires ConfigErrors(c) == [] && c.calculationType.PER_KM? && CanonicalDistance(d)
    ensures var r, product := CalculateCreditCost(PolicyOf(c), d), BillableKilometers(d.Floor) * c.creditsPerKm.value.Floor;
            if product > MAX_POLICY_CREDITS then r == Err(CREDIT_COST_OUT_OF_RANGE)
            else r.Ok? && (r.value.credits == 0 <==> c.minimumCredits.value.Floor == 0 && d.Floor == 0)
  {
    ProductIsPositive(BillableKilometers(d.Floor), c.creditsPerKm.value.Floor);
  }

  lemma FlatCosts(c: Config, d: real)
    requires ConfigErrors(c) == [] && c.calculationType.FLAT? && CanonicalDistance(d)
    ensures CalculateCreditCost(PolicyOf(c), d).Ok? && CalculateCreditCost(PolicyOf(c), d).value.credits >= 1
  {}

  lemma RangeCosts(c: Config, d: real)
    requires ConfigErrors(c) == [] && c.calculationType.DISTANCE_RANGE? && CanonicalDistance(d)
    ensures CalculateCreditCost(PolicyOf(c), d).Ok? && CalculateCreditCost(PolicyOf(c), d).value.credits >= 1
  {
    FindRangeIsTotal(c.ranges.value, d);
  }

  /** What an accepted policy charges, said without its arithmetic: per started kilometre, never under the minimum. */
  lemma CostMeans(c: Config, d: real)
    requires ConfigErrors(c) == [] && CalculateCreditCost(PolicyOf(c), d).Ok?
    ensures var cost := CalculateCreditCost(PolicyOf(c), d).value;
            match c.calculationType
            case PER_KM =>
              exists km: nat :: (km as real - 1.0) * 1000.0 < d <= km as real * 1000.0
                && cost.billableKm == Some(km)
                && cost.credits >= km * c.creditsPerKm.value.Floor && cost.credits >= c.minimumCredits.value.Floor
                && (cost.minimumApplied <==> cost.credits > km * c.creditsPerKm.value.Floor)
                && (cost.credits == km * c.creditsPerKm.value.Floor || cost.credits == c.minimumCredits.value.Floor)
            case FLAT => cost.credits as real == c.flatCredits.value
            case DISTANCE_RANGE =>
              exists i :: 0 <= i < |c.ranges.value| && Contains(c.ranges.value[i], d)
                && cost.credits as real == c.ranges.value[i].credits
            case UNKNOWN_TYPE => true
  {
    match c.calculationType
    case PER_KM =>
      var km := BillableKilometers(d.Floor);
      assert (km as real - 1.0) * 1000.0 < d <= km as real * 1000.0;
    case DISTANCE_RANGE =>
      FindRangeIsTotal(c.ranges.value, d);
      var r := FindRange(PolicyOf(c).ranges, d).value.range;
      var i :| 0 <= i < |c.ranges.value| && c.ranges.value[i] == r;
    case FLAT =>
    case UNKNOWN_TYPE =>
  }

  lemma ProductIsPositive(a: nat, b: nat)
    requires b >= 1
    ensures a * b >= a
  {}

  lemma ProductGrows(a: nat, b: nat, k: nat)
    requires a <= b
    ensures a * k <= b * k
  {}

  /** Under PER_KM a longer service never costs less, and one that can be priced prices every shorter one. */
  lemma PerKmIsMonotone(c: Config, d: real, e: real)
    requires ConfigErrors(c) == [] && c.calculationType.PER_KM? && CanonicalDistance(d) && CanonicalDistance(e) && d <= e
    ensures var shorter, longer := CalculateCreditCost(PolicyOf(c), d), CalculateCreditCost(PolicyOf(c), e);
            longer.Ok? ==> shorter.Ok? && shorter.value.credits <= longer.value.credits
  {
    ProductGrows(BillableKilometers(d.Floor), BillableKilometers(e.Floor), c.creditsPerKm.value.Floor);
  }

  /** The same ranges in another order are the same policy: same acceptance, same cost at every distance. */
  lemma OrderDoesNotMatter(a: seq<Range>, b: seq<Range>, d: real)
    requires multiset(a) == multiset(b) && a != [] && b != [] && 0.0 <= d
    ensures Accepted(a) <==> Accepted(b)
    ensures Accepted(a) ==>
              FindRange(Placed(SortByMin(a)), d).Some? && FindRange(Placed(SortByMin(b)), d).Some?
              && FindRange(Placed(SortByMin(a)), d).value.range == FindRange(Placed(SortByMin(b)), d).value.range
  {
    AcceptedIffPartition(a);
    AcceptedIffPartition(b);
    SameElements(a, b);
    assert |a| == |multiset(a)| == |multiset(b)| == |b|;
    forall x: nat ensures OnceAt(a, x) == OnceAt(b, x) { CountIsOfElements(a, b, x as real); }
    assert Partition(a) <==> Partition(b);
    if Accepted(a) {
      FindRangeIsTotal(a, d);
      FindRangeIsTotal(b, d);
      var r := FindRange(Placed(SortByMin(a)), d).value.range;
      assert r in multiset(b);
    }
  }

  lemma {:induction false} CountIsOfElements(a: seq<Range>, b: seq<Range>, d: real)
    requires multiset(a) == multiset(b)
    ensures Count(a, d) == Count(b, d)
    decreases |a|
  {
    if a == [] {
      assert |multiset(b)| == 0;
    } else {
      var n := |a| - 1;
      assert a[n] in multiset(b);
      var k :| 0 <= k < |b| && b[k] == a[n];
      WithoutOne(a, n);
      WithoutOne(b, k);
      assert a[..n] + a[n + 1..] == a[..n];
      CountIsOfElements(a[..n], b[..k] + b[k + 1..], d);
      CountSkips(b, k, d);
    }
  }

  lemma WithoutOne(b: seq<Range>, k: nat)
    requires k < |b|
    ensures multiset(b[..k] + b[k + 1..]) == multiset(b) - multiset{b[k]}
  {
    assert b == b[..k] + [b[k]] + b[k + 1..];
  }

  lemma {:induction false} CountSkips(b: seq<Range>, k: nat, d: real)
    requires k < |b|
    ensures Count(b, d) == Count(b[..k] + b[k + 1..], d) + if Contains(b[k], d) then 1 else 0
    decreases |b|
  {
    var n := |b| - 1;
    if k < n {
      CountSkips(b[..n], k, d);
      var rest := b[..k] + b[k + 1..];
      assert rest[..|rest| - 1] == b[..n][..k] + b[..n][k + 1..];
    } else {
      assert b[..k] + b[k + 1..] == b[..n];
    }
  }
}
