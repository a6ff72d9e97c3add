/**
 * The canonical form of a prequote request: pickup before dropoff, absent measurements made
 * explicit, packages in the order of their canonical JSON. Two requests get the same idempotency
 * fingerprint exactly when they name the same stops and the same packages, in whatever order.
 */
module PrequoteConditions {
  import opened Common
  import J = CanonicalJson

  // ---------------------------------------------------------------- what arrives

  /** A property of an untrusted JSON object: missing, null, of another type, or a value to check. */
  datatype Field<+T> = Absent | Null | Mistyped | Given(value: T)

  datatype RawStop = StopNotObject | RawStop(
    kind: Field<string>, sequence: Field<int>, latitude: Field<real>, longitude: Field<real>, unknownKeys: bool)

  datatype RawPackage = PackageNotObject | RawPackage(
    category: Field<string>, quantity: Field<int>, weightKg: Field<real>, lengthCm: Field<real>,
    widthCm: Field<real>, heightCm: Field<real>, isFragile: Field<bool>, unknownKeys: bool)

  datatype RawInput = InputNotObject | RawInput(
    conditionsVersion: Field<int>, serviceType: Field<string>,
    stops: Field<seq<RawStop>>, packages: Field<seq<RawPackage>>, unknownKeys: bool)

  // ---------------------------------------------------------------- what is kept

  datatype StopKind = PICKUP | DROPOFF

  datatype Stop = Stop(kind: StopKind, sequence: int, latitude: real, longitude: real)

  datatype Package = Package(
    quantity: int, weightKg: Option<real>, lengthCm: Option<real>,
    widthCm: Option<real>, heightCm: Option<real>, isFragile: bool)

  datatype Conditions = Conditions(stops: seq<Stop>, packages: seq<Package>)

  /** `scale` is the power of ten of the decimals allowed. */
  predicate AtMostDecimals(x: real, scale: real) { (x * scale).Floor as real == x * scale }

  /** One stop checked on its own; its place among the stops is checked after sorting. */
  function ParseStop(raw: RawStop): Option<Stop> {
    if || raw.StopNotObject? || raw.unknownKeys
       || !raw.kind.Given? || (raw.kind.value != "PICKUP" && raw.kind.value != "DROPOFF")
       || !raw.sequence.Given? || !(1 <= raw.sequence.value <= 2)
       || !raw.latitude.Given? || !(-90.0 <= raw.latitude.value <= 90.0)
       || !raw.longitude.Given? || !(-180.0 <= raw.longitude.value <= 180.0)
       || !AtMostDecimals(raw.latitude.value, 1000000.0) || !AtMostDecimals(raw.longitude.value, 1000000.0)
    then None
    else Some(Stop(if raw.kind.value == "PICKUP" then PICKUP else DROPOFF,
                   raw.sequence.value, raw.latitude.value, raw.longitude.value))
  }

  predicate MeasureOk(f: Field<real>, least: real, scale: real) {
    f.Absent? || f.Null? || (f.Given? && least <= f.value <= 100000.0 && AtMostDecimals(f.value, scale))
  }

  /** Absent and null mean the same measurement: none. */
  function Measure(f: Field<real>): Option<real> { if f.Given? then Some(f.value) else None }

  function ParsePackage(raw: RawPackage): Option<Package> {
    if || raw.PackageNotObject? || raw.unknownKeys
       || raw.category != Given("FOOD")
       || !raw.quantity.Given? || !(1 <= raw.quantity.value <= 10000)
       || !MeasureOk(raw.weightKg, 0.001, 1000.0) || !MeasureOk(raw.lengthCm, 0.01, 100.0)
       || !MeasureOk(raw.widthCm, 0.01, 100.0) || !MeasureOk(raw.heightCm, 0.01, 100.0)
       || raw.isFragile.Null? || raw.isFragile.Mistyped?
    then None
    else Some(Package(raw.quantity.value, Measure(raw.weightKg), Measure(raw.lengthCm),
                      Measure(raw.widthCm), Measure(raw.heightCm),
                      raw.isFragile.Given? && raw.isFragile.value))
  }

  function ParseStops(raw: seq<RawStop>): Option<seq<Stop>> {
    if raw == [] then Some([])
    else
      var head, tail := ParseStop(raw[0]), ParseStops(raw[1..]);
      if head.None? || tail.None? then None else Some([head.value] + tail.value)
  }

  function ParsePackages(raw: seq<RawPackage>): Option<seq<Package>> {
    if raw == [] then Some([])
    else
      var head, tail := ParsePackage(raw[0]), ParsePackages(raw[1..]);
      if head.None? || tail.None? then None else Some([head.value] + tail.value)
  }

  // ---------------------------------------------------------------- the order of packages

  /** A number of at most six decimals as JSON counts it. */
  function NumberJson(x: real): J.Json { J.Number((x * 1000000.0).Floor) }

  function MeasureJson(m: Option<real>): J.Json { if m.Some? then NumberJson(m.value) else J.Null }

  function PackageJson(p: Package): J.Json {
    J.Object(map[
      "category" := J.Text("FOOD"), "quantity" := NumberJson(p.quantity as real),
      "weightKg" := MeasureJson(p.weightKg), "lengthCm" := MeasureJson(p.lengthCm),
      "widthCm" := MeasureJson(p.widthCm), "heightCm" := MeasureJson(p.heightCm),
      "isFragile" := J.Bool(p.isFragile)])
  }

  function Json(p: Package): string { J.CanonicalJson(PackageJson(p)) }

  /** A package that validation lets through. */
  predicate Kept(p: Package) { ParsePackage(PackageAsInput(p)) == Some(p) }

  lemma MeasuresDiffer(a: Option<real>, b: Option<real>)
    requires Exact(a) && Exact(b)
    requires MeasureJson(a) == MeasureJson(b)
    ensures a == b
  {
    if a.Some? && b.Some? {
      ThousandthsAreExact(a.value);
      ThousandthsAreExact(b.value);
    }
  }

  lemma WholeIsItsFloor(x: real, n: int)
    requires x == n as real
    ensures x.Floor == n && x.Floor as real == x
  {}

  lemma ThousandthsAreExact(x: real)
    requires AtMostDecimals(x, 1000.0)
    ensures (x * 1000000.0).Floor as real == x * 1000000.0
  {
    var n := (x * 1000.0).Floor;
    assert x * 1000.0 == n as real;
    assert (1000 * n) as real == 1000.0 * n as real;
    assert x * 1000000.0 == 1000.0 * (x * 1000.0);
    WholeIsItsFloor(x * 1000000.0, 1000 * n);
  }

  lemma HundredthsAreThousandths(x: real)
    requires AtMostDecimals(x, 100.0)
    ensures AtMostDecimals(x, 1000.0)
  {
    var n := (x * 100.0).Floor;
    assert x * 100.0 == n as real;
    assert (10 * n) as real == 10.0 * n as real;
    assert x * 1000.0 == 10.0 * (x * 100.0);
    WholeIsItsFloor(x * 1000.0, 10 * n);
  }

  predicate Exact(m: Option<real>) { m.Some? ==> AtMostDecimals(m.value, 1000.0) }

  lemma KeptIsExact(p: Package)
    requires Kept(p)
    ensures Exact(p.weightKg) && Exact(p.lengthCm) && Exact(p.widthCm) && Exact(p.heightCm)
  {
    if p.lengthCm.Some? { HundredthsAreThousandths(p.lengthCm.value); }
    if p.widthCm.Some? { HundredthsAreThousandths(p.widthCm.value); }
    if p.heightCm.Some? { HundredthsAreThousandths(p.heightCm.value); }
  }

  /** Different packages have different canonical JSON, so ordering by it leaves no choice. */
  lemma PackagesDiffer(p: Package, q: Package)
    requires Kept(p) && Kept(q) && Json(p) == Json(q)
    ensures p == q
  {
    SameFields(p, q);
    KeptIsExact(p);
    KeptIsExact(q);
    WholesDiffer(p.quantity, q.quantity);
    MeasuresDiffer(p.weightKg, q.weightKg);
    MeasuresDiffer(p.lengthCm, q.lengthCm);
    MeasuresDiffer(p.widthCm, q.widthCm);
    MeasuresDiffer(p.heightCm, q.heightCm);
  }

  lemma WholesDiffer(m: int, n: int)
    requires NumberJson(m as real) == NumberJson(n as real)
    ensures m == n
  {
    WholeIsItsFloor(m as real * 1000000.0, m * 1000000);
    WholeIsItsFloor(n as real * 1000000.0, n * 1000000);
  }

  lemma SameFields(p: Package, q: Package)
    requires Json(p) == Json(q)
    ensures NumberJson(p.quantity as real) == NumberJson(q.quantity as real) && p.isFragile == q.isFragile
    ensures MeasureJson(p.weightKg) == MeasureJson(q.weightKg) && MeasureJson(p.lengthCm) == MeasureJson(q.lengthCm)
    ensures MeasureJson(p.widthCm) == MeasureJson(q.widthCm) && MeasureJson(p.heightCm) == MeasureJson(q.heightCm)
  {
    J.CanonicalJsonIsInjective(PackageJson(p), PackageJson(q));
    FieldsOf(p);
    FieldsOf(q);
  }

  lemma FieldsOf(p: Package)
    ensures var m := PackageJson(p).members;
            && "quantity" in m && m["quantity"] == NumberJson(p.quantity as real)
            && "weightKg" in m && m["weightKg"] == MeasureJson(p.weightKg)
            && "lengthCm" in m && m["lengthCm"] == MeasureJson(p.lengthCm)
            && "widthCm" in m && m["widthCm"] == MeasureJson(p.widthCm)
            && "heightCm" in m && m["heightCm"] == MeasureJson(p.heightCm)
            && "isFragile" in m && m["isFragile"] == J.Bool(p.isFragile)
  {}

  function InsertPackage(p: Package, ps: seq<Package>): seq<Package> {
    if ps == [] || !J.Leq(Json(ps[0]), Json(p)) then [p] + ps
    else [ps[0]] + InsertPackage(p, ps[1..])
  }

  /** Stands for the stable sort built into the platform. */
  function SortPackages(ps: seq<Package>): seq<Package> {
    if ps == [] then [] else InsertPackage(ps[|ps| - 1], SortPackages(ps[..|ps| - 1]))
  }

  ghost predicate Ordered(ps: seq<Package>) {
    ps == [] || (Ordered(ps[1..]) && forall q :: q in multiset(ps) ==> J.Leq(Json(ps[0]), Json(q)))
  }

  lemma {:induction false} InsertPackageElements(p: Package, ps: seq<Package>)
    ensures multiset(InsertPackage(p, ps)) == multiset{p} + multiset(ps)
  {
    if !(ps == [] || !J.Leq(Json(ps[0]), Json(p))) {
      InsertPackageElements(p, ps[1..]);
      assert ps == [ps[0]] + ps[1..];
    }
  }

  lemma {:induction false} InsertPackageOrders(p: Package, ps: seq<Package>)
    requires Ordered(ps)
    ensures Ordered(InsertPackage(p, ps))
  {
    var r := InsertPackage(p, ps);
    InsertPackageElements(p, ps);
    J.LeqTotal(Json(p), Json(p));
    if ps == [] {
    } else if !J.Leq(Json(ps[0]), Json(p)) {
      J.LeqTotal(Json(ps[0]), Json(p));
      forall q | q in multiset(r) ensures J.Leq(Json(p), Json(q)) {
        if q != p { J.LeqTransitive(Json(p), Json(ps[0]), Json(q)); }
      }
      assert r[1..] == ps;
    } else {
      InsertPackageOrders(p, ps[1..]);
      assert ps[0] in multiset(ps);
      assert r[1..] == InsertPackage(p, ps[1..]);
    }
  }

  lemma {:induction false} SortPackagesSorts(ps: seq<Package>)
    ensures Ordered(SortPackages(ps)) && multiset(SortPackages(ps)) == multiset(ps)
  {
    if ps != [] {
      var front := ps[..|ps| - 1];
      SortPackagesSorts(front);
      InsertPackageOrders(ps[|ps| - 1], SortPackages(front));
      InsertPackageElements(ps[|ps| - 1], SortPackages(front));
      FrontAndLast(ps);
    }
  }

  predicate AllKept(ps: seq<Package>) { forall p :: p in multiset(ps) ==> Kept(p) }

  lemma SameHead(a: seq<Package>, b: seq<Package>)
    requires a != [] && b != [] && AllKept(a)
    requires Ordered(a) && Ordered(b) && multiset(a) == multiset(b)
    ensures a[0] == b[0]
  {
    assert a[0] in multiset(a) && b[0] in multiset(b);
    J.LeqAntisymmetric(Json(a[0]), Json(b[0]));
    PackagesDiffer(a[0], b[0]);
  }

  lemma WithoutHead(a: seq<Package>)
    requires a != []
    ensures multiset(a[1..]) == multiset(a) - multiset{a[0]}
  {
    assert a == [a[0]] + a[1..];
  }

  lemma SameTail(a: seq<Package>, b: seq<Package>)
    requires a != [] && b != [] && a[0] == b[0]
    requires Ordered(a) && Ordered(b) && multiset(a) == multiset(b)
    ensures Ordered(a[1..]) && Ordered(b[1..]) && multiset(a[1..]) == multiset(b[1..])
  {
    WithoutHead(a);
    WithoutHead(b);
  }

  lemma TailIsKept(a: seq<Package>)
    requires a != [] && AllKept(a)
    ensures AllKept(a[1..])
  {
    WithoutHead(a);
  }

  lemma FrontAndLast(ps: seq<Package>)
    requires ps != []
    ensures multiset(ps) == multiset(ps[..|ps| - 1]) + multiset{ps[|ps| - 1]}
  {
    assert ps == ps[..|ps| - 1] + [ps[|ps| - 1]];
  }

  /** There is only one ordered arrangement of a multiset of packages. */
  lemma {:induction false} OrderedIsUnique(a: seq<Package>, b: seq<Package>)
    requires AllKept(a)
    requires Ordered(a) && Ordered(b) && multiset(a) == multiset(b)
    ensures a == b
  {
    if a == [] {
      assert |multiset(b)| == 0;
    } else {
      assert |multiset(a)| == |multiset(b)| == |b|;
      assert b != [];
      SameHead(a, b);
      SameTail(a, b);
      TailIsKept(a);
      OrderedIsUnique(a[1..], b[1..]);
      assert a == [a[0]] + a[1..] && b == [b[0]] + b[1..];
    }
  }

  // ---------------------------------------------------------------- normalisation

  function SortTwoStops(stops: seq<Stop>): seq<Stop>
    requires |stops| == 2
  {
    if stops[1].sequence < stops[0].sequence then [stops[1], stops[0]] else stops
  }

  predicate InPlace(stops: seq<Stop>) {
    && |stops| == 2
    && stops[0].kind.PICKUP? && stops[0].sequence == 1
    && stops[1].kind.DROPOFF? && stops[1].sequence == 2
  }

  /** The shape of the request, before any stop or package is looked at. */
  predicate Envelope(raw: RawInput) {
    && raw.RawInput? && !raw.unknownKeys
    && raw.conditionsVersion == Given(1) && raw.serviceType == Given("LOCAL_DELIVERY")
    && raw.stops.Given? && |raw.stops.value| == 2
    && raw.packages.Given? && 1 <= |raw.packages.value| <= 50
  }

  lemma {:induction false} ParsedStopsCount(raw: seq<RawStop>)
    ensures ParseStops(raw).Some? ==> |ParseStops(raw).value| == |raw|
  {
    if raw != [] { ParsedStopsCount(raw[1..]); }
  }

  /** The canonical form, or None where the service answers PREQUOTE_CONDITIONS_INVALID. */
  function Normalize(raw: RawInput): Option<Conditions> {
    if !Envelope(raw) then None
    else
      var stops, packages := ParseStops(raw.stops.value), ParsePackages(raw.packages.value);
      ParsedStopsCount(raw.stops.value);
      if stops.None? || !InPlace(SortTwoStops(stops.value)) || packages.None? then None
      else Some(Conditions(SortTwoStops(stops.value), SortPackages(packages.value)))
  }

  /** A canonical form sent back as a request. */
  function StopAsInput(s: Stop): RawStop {
    RawStop(Given(if s.kind.PICKUP? then "PICKUP" else "DROPOFF"), Given(s.sequence),
            Given(s.latitude), Given(s.longitude), false)
  }

  function MeasureAsInput(m: Option<real>): Field<real> { if m.Some? then Given(m.value) else Null }

  function PackageAsInput(p: Package): RawPackage {
    RawPackage(Given("FOOD"), Given(p.quantity), MeasureAsInput(p.weightKg), MeasureAsInput(p.lengthCm),
               MeasureAsInput(p.widthCm), MeasureAsInput(p.heightCm), Given(p.isFragile), false)
  }

  function AsInput(c: Conditions): RawInput {
    RawInput(Given(1), Given("LOCAL_DELIVERY"),
             Given(seq(|c.stops|, i requires 0 <= i < |c.stops| => StopAsInput(c.stops[i]))),
             Given(seq(|c.packages|, i requires 0 <= i < |c.packages| => PackageAsInput(c.packages[i]))), false)
  }

  lemma {:induction false} ParsedPackages(raw: seq<RawPackage>)
    requires ParsePackages(raw).Some?
    ensures var ps := ParsePackages(raw).value;
            |ps| == |raw| && AllKept(ps)
  {
    if raw != [] { ParsedPackages(raw[1..]); }
  }

  lemma {:induction false} PackagesReparse(ps: seq<Package>, raw: seq<RawPackage>)
    requires |raw| == |ps| && forall i :: 0 <= i < |ps| ==> raw[i] == PackageAsInput(ps[i])
    requires AllKept(ps)
    ensures ParsePackages(raw) == Some(ps)
  {
    if ps != [] {
      assert ps == [ps[0]] + ps[1..];
      assert ps[0] in multiset(ps);
      forall p | p in multiset(ps[1..]) ensures Kept(p) {
        assert p in multiset(ps);
      }
      PackagesReparse(ps[1..], raw[1..]);
    }
  }

  /** Nothing is lost and nothing invented: the packages kept are those sent, with defaults filled in. */
  lemma NormalizeKeepsPackages(raw: RawInput)
    requires Normalize(raw).Some?
    ensures multiset(Normalize(raw).value.packages) == multiset(ParsePackages(raw.packages.value).value)
    ensures |Normalize(raw).value.packages| == |raw.packages.value|
  {
    var ps := ParsePackages(raw.packages.value).value;
    SortPackagesSorts(ps);
    ParsedPackages(raw.packages.value);
    assert |SortPackages(ps)| == |multiset(SortPackages(ps))| == |multiset(ps)| == |ps|;
  }

  lemma SortingTwice(ps: seq<Package>)
    requires AllKept(ps)
    ensures SortPackages(SortPackages(ps)) == SortPackages(ps)
  {
    SortPackagesSorts(ps);
    SortPackagesSorts(SortPackages(ps));
    OrderedIsUnique(SortPackages(SortPackages(ps)), SortPackages(ps));
  }

  /** The canonical form is a fixed point. */
  lemma NormalizeIsIdempotent(raw: RawInput)
    requires Normalize(raw).Some?
    ensures Normalize(AsInput(Normalize(raw).value)) == Normalize(raw)
  {
    PackagesAgain(raw);
    ParsedStopsCount(raw.stops.value);
    var c := Normalize(raw).value;
    StopsReparse(raw.stops.value, c.stops, AsInput(c).stops.value);
  }

  lemma PackagesAgain(raw: RawInput)
    requires Normalize(raw).Some?
    ensures var c := Normalize(raw).value;
            && 1 <= |c.packages| <= 50
            && ParsePackages(AsInput(c).packages.value) == Some(c.packages) && SortPackages(c.packages) == c.packages
  {
    var c := Normalize(raw).value;
    NormalizeKeepsPackages(raw);
    ParsedPackages(raw.packages.value);
    PackagesReparse(c.packages, AsInput(c).packages.value);
    SortingTwice(ParsePackages(raw.packages.value).value);
  }

  lemma StopsReparse(raw: seq<RawStop>, stops: seq<Stop>, again: seq<RawStop>)
    requires |raw| == |again| == |stops| == 2 && ParseStops(raw).Some? && |ParseStops(raw).value| == 2
    requires stops == SortTwoStops(ParseStops(raw).value)
    requires again[0] == StopAsInput(stops[0]) && again[1] == StopAsInput(stops[1])
    ensures ParseStops(again) == Some(stops)
  {
    ParsedTwoStops(raw);
    StopReparses(raw[0]);
    StopReparses(raw[1]);
    ParsedTwoStops(again);
  }

  lemma StopReparses(raw: RawStop)
    ensures ParseStop(raw).Some? ==> ParseStop(StopAsInput(ParseStop(raw).value)) == ParseStop(raw)
  {}

  /** Two stops are read one by one. */
  lemma ParsedTwoStops(raw: seq<RawStop>)
    requires |raw| == 2
    ensures var a, b := ParseStop(raw[0]), ParseStop(raw[1]);
            ParseStops(raw) == if a.Some? && b.Some? then Some([a.value, b.value]) else None
  {
    var tail := raw[1..];
    var rest := tail[1..];
    assert tail[0] == raw[1] && rest == [];
    assert ParseStops(rest) == Some([]);
    if ParseStop(raw[1]).Some? {
      var b := ParseStop(raw[1]).value;
      assert [b] + [] == [b];
      assert ParseStops(tail) == Some([b]);
      if ParseStop(raw[0]).Some? { assert [ParseStop(raw[0]).value] + [b] == [ParseStop(raw[0]).value, b]; }
    }
  }

  /**
   * Canonical form: two accepted requests normalise equally if and only if they name the same two
   * stops and the same multiset of packages, in whatever order they were sent.
   */
  lemma NormalizeIsCanonical(a: RawInput, b: RawInput)
    requires Normalize(a).Some? && Normalize(b).Some?
    ensures Normalize(a) == Normalize(b) <==>
            && multiset(ParseStops(a.stops.value).value) == multiset(ParseStops(b.stops.value).value)
            && multiset(ParsePackages(a.packages.value).value) == multiset(ParsePackages(b.packages.value).value)
  {
    var x, y := Normalize(a).value, Normalize(b).value;
    NormalizeKeepsPackages(a);
    NormalizeKeepsPackages(b);
    SortPackagesSorts(ParsePackages(a.packages.value).value);
    SortPackagesSorts(ParsePackages(b.packages.value).value);
    ParsedPackages(a.packages.value);
    if multiset(x.packages) == multiset(y.packages) { OrderedIsUnique(x.packages, y.packages); }
    ParsedStopsCount(a.stops.value);
    ParsedStopsCount(b.stops.value);
    StopsAsMultiset(ParseStops(a.stops.value).value);
    StopsAsMultiset(ParseStops(b.stops.value).value);
  }

  lemma StopsAsMultiset(stops: seq<Stop>)
    requires |stops| == 2 && InPlace(SortTwoStops(stops))
    ensures multiset(stops) == multiset{SortTwoStops(stops)[0], SortTwoStops(stops)[1]}
    ensures SortTwoStops(stops) == [SortTwoStops(stops)[0], SortTwoStops(stops)[1]]
    ensures forall s :: s in multiset(stops) && s.sequence == 1 ==> s == SortTwoStops(stops)[0]
    ensures forall s :: s in multiset(stops) && s.sequence == 2 ==> s == SortTwoStops(stops)[1]
    ensures SortTwoStops(stops)[0] in multiset(stops) && SortTwoStops(stops)[1] in multiset(stops)
  {
    assert stops == [stops[0], stops[1]];
  }

  // ---------------------------------------------------------------- the fingerprint

  function StopJson(s: Stop): J.Json {
    J.Object(map[
      "type" := J.Text(if s.kind.PICKUP? then "PICKUP" else "DROPOFF"), "sequence" := NumberJson(s.sequence as real),
      "latitude" := NumberJson(s.latitude), "longitude" := NumberJson(s.longitude)])
  }

  function ConditionsJson(c: Conditions): J.Json {
    J.Object(map[
      "conditionsVersion" := NumberJson(1.0), "serviceType" := J.Text("LOCAL_DELIVERY"),
      "stops" := J.Array(seq(|c.stops|, i requires 0 <= i < |c.stops| => StopJson(c.stops[i]))),
      "packages" := J.Array(seq(|c.packages|, i requires 0 <= i < |c.packages| => PackageJson(c.packages[i])))])
  }

  predicate KeptStop(s: Stop) { AtMostDecimals(s.latitude, 1000000.0) && AtMostDecimals(s.longitude, 1000000.0) }

  lemma StopsDiffer(s: Stop, t: Stop)
    requires KeptStop(s) && KeptStop(t) && StopJson(s) == StopJson(t)
    ensures s == t
  {
    var m, n := StopJson(s).members, StopJson(t).members;
    assert m["type"] == n["type"] && m["sequence"] == n["sequence"];
    assert m["latitude"] == n["latitude"] && m["longitude"] == n["longitude"];
    WholesDiffer(s.sequence, t.sequence);
  }

  lemma ConditionsDiffer(c: Conditions, d: Conditions)
    requires forall i :: 0 <= i < |c.stops| ==> KeptStop(c.stops[i])
    requires forall i :: 0 <= i < |d.stops| ==> KeptStop(d.stops[i])
    requires AllKept(c.packages) && AllKept(d.packages) && ConditionsJson(c) == ConditionsJson(d)
    ensures c == d
  {
    var m, n := ConditionsJson(c).members, ConditionsJson(d).members;
    var stops, packages := m["stops"].items, m["packages"].items;
    assert m["stops"] == n["stops"] && m["packages"] == n["packages"];
    forall i | 0 <= i < |c.stops| ensures c.stops[i] == d.stops[i] {
      assert stops[i] == StopJson(c.stops[i]) == StopJson(d.stops[i]);
      StopsDiffer(c.stops[i], d.stops[i]);
    }
    forall i | 0 <= i < |c.packages| ensures c.packages[i] == d.packages[i] {
      assert packages[i] == PackageJson(c.packages[i]) == PackageJson(d.packages[i]);
      assert c.packages[i] in multiset(c.packages) && d.packages[i] in multiset(d.packages);
      PackagesDiffer(c.packages[i], d.packages[i]);
    }
  }

  lemma NormalizedIsKept(raw: RawInput)
    requires Normalize(raw).Some?
    ensures var c := Normalize(raw).value;
            AllKept(c.packages) && forall i :: 0 <= i < |c.stops| ==> KeptStop(c.stops[i])
  {
    NormalizeKeepsPackages(raw);
    ParsedPackages(raw.packages.value);
    ParsedTwoStops(raw.stops.value);
    ParsedStopsCount(raw.stops.value);
  }

  /**
   * Two accepted requests get fingerprints of the same text if and only if they are for the same
   * operation, the same two stops and the same packages, in whatever order they were sent.
   */
  lemma FingerprintsMatchIff(a: RawInput, b: RawInput, operation: string, other: string)
    requires Normalize(a).Some? && Normalize(b).Some?
    ensures var mine := J.Fingerprinted(operation, ConditionsJson(Normalize(a).value));
            var theirs := J.Fingerprinted(other, ConditionsJson(Normalize(b).value));
            mine == theirs <==>
              && operation == other
              && multiset(ParseStops(a.stops.value).value) == multiset(ParseStops(b.stops.value).value)
              && multiset(ParsePackages(a.packages.value).value) == multiset(ParsePackages(b.packages.value).value)
  {
    var c, d := Normalize(a).value, Normalize(b).value;
    J.FingerprintsTellRequestsApart(operation, ConditionsJson(c), other, ConditionsJson(d));
    NormalizedIsKept(a);
    NormalizedIsKept(b);
    if ConditionsJson(c) == ConditionsJson(d) { ConditionsDiffer(c, d); }
    NormalizeIsCanonical(a, b);
  }
}
