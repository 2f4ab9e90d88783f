/** The request validators (middleware/validate.js): each exported array is
    a list of express-validator chains, and a chain is a field, an
    `optional()` flag and its checks, each with the message it reports.
    Running the arrays on a request gives the messages of the failing
    checks, in chain order. The email, ISO 8601 and date formats and date
    parsing are parameters. */
module Validate {
  import opened Text
  import opened Js

  // ---------------------------------------------------------------------
  // What a standard validator sees

  /** express-validator's `toString`: null, undefined and NaN become the
      empty string, everything else its string form. */
  function Shown(v: Value): string
  {
    if v.Undefined? || v.Null? || v.NaN? then "" else ToStr(v)
  }

  /** The value at a dotted field path such as `location.latitude`. */
  function Lookup(o: seq<Field>, path: seq<string>): Value
    decreases |path|
  {
    if path == [] then Obj(o)
    else if |path| == 1 then Get(o, path[0])
    else
      match Get(o, path[0])
      case Obj(inner) => Lookup(inner, path[1..])
      case _ => Undefined
  }

  /** The sign of `[-+]?` and what follows it. */
  function Unsigned(s: string): string
  {
    if s != [] && (s[0] == '-' || s[0] == '+') then s[1..] else s
  }

  function Signed(s: string, x: real): real
  {
    if s != [] && s[0] == '-' then -x else x
  }

  /** validator's `isInt` (leading zeros allowed): `[-+]?[0-9]+`, and its
      value. */
  function IntText(s: string): (r: Option<int>)
    ensures r.Some? ==> Unsigned(s) != "" && AllDigits(Unsigned(s))
  {
    var u := Unsigned(s);
    if u != "" && AllDigits(u) then
      Some(if s[0] == '-' then -(DigitsValue(u) as int) else DigitsValue(u))
    else None
  }

  /** validator's `isFloat` without an exponent part: `[-+]?[0-9]*(.[0-9]*)?`
      with at least one digit, and its value. */
  function FloatText(s: string): (r: Option<real>)
  {
    var u := Unsigned(s);
    if '.' in u then
      var i := IndexOf(u, '.');
      var a, b := u[..i], u[i + 1..];
      if AllDigits(a) && AllDigits(b) && |a| + |b| > 0 then
        Some(Signed(s, DigitsValue(a) as real + DigitsValue(b) as real / Pow10(|b|) as real))
      else None
    else if u != "" && AllDigits(u) then
      Some(Signed(s, DigitsValue(u) as real))
    else None
  }

  /** An integer written out by JavaScript reads back as itself, both as an
      integer and as a float. */
  lemma IntTextRoundTrip(n: int)
    ensures IntText(IntToStr(n)) == Some(n)
    ensures FloatText(IntToStr(n)) == Some(n as real)
  {
    var m: nat := if n < 0 then -n else n;
    NatToStrValue(m);
    var t := NatToStr(m);
    assert Unsigned(IntToStr(n)) == t by {
      assert IsDigit(t[0]);
    }
    assert forall i :: 0 <= i < |t| ==> t[i] != '.' by {
      assert AllDigits(t);
    }
  }

  /** A fixed-point rendering reads back as a float. */
  lemma FixedFloat(x: real, p: nat)
    requires p >= 1 && IsWhole(Shift(x, p))
    ensures FloatText(FixedStr(x, p)) == Some(x)
  {
    FixedParts(x, p);
    var a, b := WholeDigits(x, p), PlaceDigits(x, p);
    var w := a + "." + b;
    var s := FixedStr(x, p);
    PointSplit(a, b);
    if x < 0.0 {
      assert s == "-" + w && s[1..] == w;
    } else {
      assert s == w && IsDigit(s[0]);
    }
    assert Unsigned(s) == w;
  }

  /** A number JavaScript writes with at most `MaxPlaces` digits after the
      point is seen by `isFloat` as itself. */
  lemma ShownReadsBack(x: real)
    requires Terminates(x)
    ensures FloatText(Shown(Num(x))) == Some(x)
  {
    if IsWhole(x) {
      IntTextRoundTrip(x.Floor);
    } else {
      FixedFloat(x, Places(x, 1));
    }
  }

  // ---------------------------------------------------------------------
  // The near grammar

  /** `/^-?\d+(\.\d+)?,-?\d+(\.\d+)?(,\d+(\.\d+)?)?$/`: two signed decimals
      and an optional unsigned one, separated by commas. */
  predicate NearMatches(s: string)
  {
    var parts := Split(s, ',');
    (|parts| == 2 || |parts| == 3)
    && IsSignedDecimal(parts[0]) && IsSignedDecimal(parts[1])
    && (|parts| == 3 ==> IsDecimal(parts[2]))
  }

  /** The text `lat,lng[,distance]`. */
  function NearText(lat: string, lng: string, distance: Option<string>): string
  {
    lat + "," + lng + (if distance.Some? then "," + distance.value else "")
  }

  lemma DecimalShape(s: string)
    requires IsDecimal(s)
    ensures ',' !in s && s != [] && IsDigit(s[0]) && IsDigit(s[|s| - 1])
  {
    if '.' in s {
      var i := IndexOf(s, '.');
      assert s == s[..i] + ['.'] + s[i + 1..];
      assert s[0] == s[..i][0] && s[|s| - 1] == s[i + 1..][|s[i + 1..]| - 1];
    }
  }

  lemma SignedDecimalShape(s: string)
    requires IsSignedDecimal(s)
    ensures ',' !in s && s != [] && !IsSpace(s[0]) && IsDigit(s[|s| - 1])
  {
    if IsDecimal(s) {
      DecimalShape(s);
    } else {
      DecimalShape(s[1..]);
      assert s == [s[0]] + s[1..];
    }
  }

  lemma SplitNoSep(s: string, c: char)
    requires c !in s
    ensures Split(s, c) == [s]
  {
  }

  lemma SplitAt(a: string, c: char, rest: string)
    requires c !in a
    ensures Split(a + [c] + rest, c) == [a] + Split(rest, c)
  {
    var s := a + [c] + rest;
    assert s[|a|] == c;
    assert forall j :: 0 <= j < |a| ==> s[j] == a[j];
    var i := IndexOf(s, c);
    assert i == |a|;
    assert s[..i] == a && s[i + 1..] == rest;
  }

  /** Every string of the form `lat,lng[,distance]` with decimals in each
      place matches, and splitting it on commas gives back its parts. */
  lemma NearTextMatches(lat: string, lng: string, distance: Option<string>)
    requires IsSignedDecimal(lat) && IsSignedDecimal(lng)
    requires distance.Some? ==> IsDecimal(distance.value)
    ensures NearMatches(NearText(lat, lng, distance))
    ensures Split(NearText(lat, lng, distance), ',')
      == [lat, lng] + (if distance.Some? then [distance.value] else [])
  {
    NearTextSplits(lat, lng, distance);
  }

  lemma NearTextSplits(lat: string, lng: string, distance: Option<string>)
    requires IsSignedDecimal(lat) && IsSignedDecimal(lng)
    requires distance.Some? ==> IsDecimal(distance.value)
    ensures Split(NearText(lat, lng, distance), ',')
      == [lat, lng] + (if distance.Some? then [distance.value] else [])
  {
    SignedDecimalShape(lat);
    SignedDecimalShape(lng);
    var s := NearText(lat, lng, distance);
    if distance.Some? {
      DecimalShape(distance.value);
      SplitNoSep(distance.value, ',');
      SplitAt(lng, ',', distance.value);
      assert s == lat + [','] + (lng + [','] + distance.value);
      SplitAt(lat, ',', lng + [','] + distance.value);
    } else {
      SplitNoSep(lng, ',');
      assert s == lat + [','] + lng;
      SplitAt(lat, ',', lng);
    }
  }

  /** And every string that matches is of that form. */
  lemma NearMatchesText(s: string)
    requires NearMatches(s)
    ensures var p := Split(s, ',');
      s == NearText(p[0], p[1], if |p| == 3 then Some(p[2]) else None)
  {
    var p := Split(s, ',');
    SplitJoin(s, ',');
    JoinCons(p[0], p[1..], [',']);
    if |p| == 3 {
      JoinCons(p[1], p[2..], [',']);
      assert p[1..][1..] == p[2..];
    }
    assert p[1..][0] == p[1];
  }

  /** A `near` that matches binds numbers for the latitude and the longitude
      of the distance query, not NaN. */
  lemma NearBindsNumbers(s: string)
    requires NearMatches(s)
    ensures var p := Split(s, ',');
      StrToNumber(p[0]) == Num(SignedDecimalValue(p[0])) && StrToNumber(p[1]) == Num(SignedDecimalValue(p[1]))
  {
    var p := Split(s, ',');
    NoTrim(p[0]);
    NoTrim(p[1]);
  }

  lemma NoTrim(t: string)
    requires IsSignedDecimal(t)
    ensures TrimEnd(TrimStart(t)) == t
  {
    SignedDecimalShape(t);
    assert TrimStart(t) == t;
    assert !IsSpace(t[|t| - 1]);
  }

  // ---------------------------------------------------------------------
  // Chains

  /** The checks the arrays use; the last three are the custom closures. */
  datatype Check =
    | NotEmpty
    | MinLength(min: nat)
    | MaxLength(max: nat)
    | IsInt(atLeast: Option<int>)
    | IsFloat(low: Option<real>, high: Option<real>)
    | IsIn(allowed: seq<string>)
    | NearFormat
    | IsObject
    | IsArray
    | IsString
    | Format(name: string)
    /** `!value && !req.body.placeId` throws */
    | EitherId
    /** `req.body[other] && !value` throws */
    | RequiredWith(other: string)
    /** `new Date(value) <= new Date(req.body[start])` throws */
    | After(start: string)

  datatype Rule = Rule(check: Check, message: string)

  datatype Chain = Chain(path: seq<string>, optional: bool, rules: seq<Rule>)

  /** The formats and the date parser (`None` for an Invalid Date). */
  datatype Env = Env(format: (string, string) -> bool, time: Value -> Option<int>)

  /** `isInt({ min })` on the text. */
  predicate IntOk(s: string, atLeast: Option<int>)
  {
    var n := IntText(s);
    n.Some? && (atLeast.None? || n.value >= atLeast.value)
  }

  /** `isFloat({ min, max })` on the text. */
  predicate FloatOk(s: string, low: Option<real>, high: Option<real>)
  {
    var x := FloatText(s);
    x.Some? && (low.None? || x.value >= low.value) && (high.None? || x.value <= high.value)
  }

  predicate Passes(c: Check, v: Value, body: seq<Field>, env: Env)
  {
    match c
    case NotEmpty => Shown(v) != ""
    case MinLength(n) => |Shown(v)| >= n
    case MaxLength(n) => |Shown(v)| <= n
    case IsInt(atLeast) => IntOk(Shown(v), atLeast)
    case IsFloat(low, high) => FloatOk(Shown(v), low, high)
    case IsIn(allowed) => Shown(v) in allowed
    case NearFormat => NearMatches(Shown(v))
    case IsObject => v.Obj?
    case IsArray => v.Arr?
    case IsString => v.Str?
    case Format(name) => env.format(name, Shown(v))
    case EitherId => Truthy(v) || Truthy(Get(body, "placeId"))
    case RequiredWith(other) => !Truthy(Get(body, other)) || Truthy(v)
    case After(start) =>
      var e, s := env.time(v), env.time(Get(body, start));
      !(e.Some? && s.Some? && e.value <= s.value)
  }

  /** The messages a list of checks can report. */
  function Messages(rules: seq<Rule>): (ms: seq<string>)
    ensures |ms| == |rules|
  {
    if rules == [] then [] else [rules[0].message] + Messages(rules[1..])
  }

  lemma {:induction false} MessagesHas(rules: seq<Rule>, r: Rule)
    requires r in rules
    ensures r.message in Messages(rules)
  {
    if rules[0] != r {
      MessagesHas(rules[1..], r);
    }
  }

  /** The messages of the failing checks of one value, in order: every
      failing check reports, not only the first. */
  function RuleErrors(rules: seq<Rule>, v: Value, body: seq<Field>, env: Env): (ms: seq<string>)
    ensures |ms| <= |rules|
  {
    if rules == [] then []
    else
      (if Passes(rules[0].check, v, body, env) then [] else [rules[0].message])
        + RuleErrors(rules[1..], v, body, env)
  }

  /** A message is reported exactly when a check carrying it fails. */
  lemma {:induction false} RuleErrorsMeaning(rules: seq<Rule>, v: Value, body: seq<Field>, env: Env, m: string)
    ensures m in RuleErrors(rules, v, body, env) <==>
      exists r :: r in rules && r.message == m && !Passes(r.check, v, body, env)
  {
    if rules != [] {
      RuleErrorsMeaning(rules[1..], v, body, env, m);
      assert forall r :: r in rules <==> r == rules[0] || r in rules[1..];
    }
  }

  /** A chain reports nothing for an absent field when it is `optional()`;
      otherwise it runs every check on the field's value. */
  function ChainErrors(c: Chain, body: seq<Field>, env: Env): (ms: seq<string>)
    ensures c.optional && Lookup(body, c.path) == Undefined ==> ms == []
  {
    if c.optional && Lookup(body, c.path) == Undefined then []
    else RuleErrors(c.rules, Lookup(body, c.path), body, env)
  }

  function Flatten(xs: seq<seq<string>>): seq<string>
  {
    if xs == [] then [] else xs[0] + Flatten(xs[1..])
  }

  lemma {:induction false} FlattenHas(xs: seq<seq<string>>, m: string)
    ensures m in Flatten(xs) <==> exists i :: 0 <= i < |xs| && m in xs[i]
  {
    if xs != [] {
      FlattenHas(xs[1..], m);
      assert forall i :: 0 < i < |xs| ==> xs[i] == xs[1..][i - 1];
    }
  }

  /** `validationResult(req)`: the messages of all chains, in order. */
  function Errors(cs: seq<Chain>, body: seq<Field>, env: Env): (ms: seq<string>)
  {
    Flatten(seq(|cs|, i requires 0 <= i < |cs| => ChainErrors(cs[i], body, env)))
  }

  /** The array reports a message exactly when one of its chains does. */
  lemma ErrorsMeaning(cs: seq<Chain>, body: seq<Field>, env: Env, m: string)
    ensures m in Errors(cs, body, env) <==> exists c :: c in cs && m in ChainErrors(c, body, env)
  {
    var xs := seq(|cs|, i requires 0 <= i < |cs| => ChainErrors(cs[i], body, env));
    FlattenHas(xs, m);
    if m in Errors(cs, body, env) {
      var i :| 0 <= i < |xs| && m in xs[i];
      assert cs[i] in cs;
    }
    if exists c :: c in cs && m in ChainErrors(c, body, env) {
      var c :| c in cs && m in ChainErrors(c, body, env);
      var i :| 0 <= i < |cs| && cs[i] == c;
      assert m in xs[i];
    }
  }

  /** A chain with a single check reports its message exactly when the
      field is there (or the chain is not optional) and the check fails. */
  lemma OneRule(c: Chain, body: seq<Field>, env: Env, m: string)
    requires |c.rules| == 1
    ensures m in ChainErrors(c, body, env) <==>
      !(c.optional && Lookup(body, c.path) == Undefined)
      && m == c.rules[0].message && !Passes(c.rules[0].check, Lookup(body, c.path), body, env)
  {
    RuleErrorsMeaning(c.rules, Lookup(body, c.path), body, env, m);
    assert forall r :: r in c.rules <==> r == c.rules[0];
  }

  /** The same for a chain with two checks. */
  lemma TwoRules(c: Chain, body: seq<Field>, env: Env, m: string)
    requires |c.rules| == 2
    ensures m in ChainErrors(c, body, env) <==>
      !(c.optional && Lookup(body, c.path) == Undefined)
      && ((m == c.rules[0].message && !Passes(c.rules[0].check, Lookup(body, c.path), body, env))
        || (m == c.rules[1].message && !Passes(c.rules[1].check, Lookup(body, c.path), body, env)))
  {
    RuleErrorsMeaning(c.rules, Lookup(body, c.path), body, env, m);
    assert forall r :: r in c.rules <==> r == c.rules[0] || r == c.rules[1];
  }

  /** A chain reports only messages of its own checks. */
  lemma ChainMessages(c: Chain, body: seq<Field>, env: Env, m: string)
    requires m in ChainErrors(c, body, env)
    ensures m in Messages(c.rules)
  {
    RuleErrorsMeaning(c.rules, Lookup(body, c.path), body, env, m);
    var r :| r in c.rules && r.message == m && !Passes(r.check, Lookup(body, c.path), body, env);
    MessagesHas(c.rules, r);
  }

  /** Chain `k` is the only chain of the array that can report `m`. */
  predicate Owns(cs: seq<Chain>, k: nat, m: string)
  {
    k < |cs| && forall i :: 0 <= i < |cs| && i != k ==> m !in Messages(cs[i].rules)
  }

  /** When only one chain of an array can report a message, the array
      reports it exactly when that chain does. */
  lemma OnlyChain(cs: seq<Chain>, k: nat, m: string, body: seq<Field>, env: Env)
    requires Owns(cs, k, m)
    ensures m in Errors(cs, body, env) <==> m in ChainErrors(cs[k], body, env)
  {
    ErrorsMeaning(cs, body, env, m);
    if m in Errors(cs, body, env) {
      var c :| c in cs && m in ChainErrors(c, body, env);
      var i :| 0 <= i < |cs| && cs[i] == c;
      ChainMessages(c, body, env, m);
      assert i == k;
    }
  }

  // ---------------------------------------------------------------------
  // The arrays

  const PendingEtc: seq<string> := ["pending", "confirmed", "cancelled", "completed"]
  const UserRoles: seq<string> := ["admin", "user", "premium", "provider"]
  const UserStatuses: seq<string> := ["active", "blocked", "inactive"]
  const Categories: seq<string> := ["museums", "hotels", "restaurants", "historical", "attractions"]
  const Sorts: seq<string> := ["rating", "name", "newest", "distance"]

  const RegisterValidation: seq<Chain> := [
    Chain(["nom"], false, [Rule(NotEmpty, "Nom is required")]),
    Chain(["prenom"], false, [Rule(NotEmpty, "Prenom is required")]),
    Chain(["email"], false, [Rule(Format("email"), "Invalid email")]),
    Chain(["password"], false, [Rule(MinLength(8), "Password must be at least 8 characters")])]

  const LoginValidation: seq<Chain> := [
    Chain(["email"], false, [Rule(Format("email"), "Invalid email")]),
    Chain(["password"], false, [Rule(NotEmpty, "Password is required")])]

  const PlaceValidation: seq<Chain> := [
    Chain(["name"], false, [Rule(NotEmpty, "Place name is required"), Rule(MaxLength(255), "Name too long")]),
    Chain(["type"], false, [Rule(NotEmpty, "Type is required"), Rule(MaxLength(50), "Type too long")]),
    Chain(["description"], true, [Rule(MaxLength(2000), "Description too long")]),
    Chain(["location"], true, [Rule(IsObject, "Location must be an object")]),
    Chain(["location", "latitude"], true, [Rule(IsFloat(Some(-90.0), Some(90.0)), "Invalid latitude")]),
    Chain(["location", "longitude"], true, [Rule(IsFloat(Some(-180.0), Some(180.0)), "Invalid longitude")]),
    Chain(["images"], true, [Rule(IsArray, "Images must be an array")]),
    Chain(["openingHours"], true, [Rule(IsObject, "Opening hours must be an object")]),
    Chain(["entranceFee"], true, [Rule(IsObject, "Entrance fee must be an object")])]

  /** `param("id").isInt()`, run on the route parameters. */
  const IdValidation: seq<Chain> := [Chain(["id"], false, [Rule(IsInt(None), "Invalid ID format")])]

  const RatingChain := Chain(["rating"], false, [Rule(IsFloat(Some(0.0), Some(5.0)), "Rating must be between 0 and 5")])

  const ReviewValidation: seq<Chain> := [
    Chain(["placeId"], false, [Rule(IsInt(None), "Place ID is required")]),
    RatingChain,
    Chain(["comment"], true, [Rule(MaxLength(1000), "Comment too long")])]

  const EitherMsg := "Either eventId or placeId is required"
  const TicketsMsg := "Number of tickets is required for event reservations"
  const PersonsMsg := "Number of persons is required for place reservations"
  const VisitMsg := "Visit date is required for place reservations"

  const EventIdChain := Chain(["eventId"], true, [Rule(IsInt(None), "Valid event ID is required"), Rule(EitherId, EitherMsg)])
  const TicketsChain := Chain(["numberOfTickets"], true,
    [Rule(IsInt(Some(1)), "Number of tickets must be at least 1"), Rule(RequiredWith("eventId"), TicketsMsg)])
  const PersonsChain := Chain(["numberOfPersons"], true,
    [Rule(IsInt(Some(1)), "Number of persons must be at least 1"), Rule(RequiredWith("placeId"), PersonsMsg)])
  const VisitChain := Chain(["visitDate"], true,
    [Rule(Format("ISO8601"), "Valid visit date is required"), Rule(RequiredWith("placeId"), VisitMsg)])
  const StatusChain := Chain(["status"], true, [Rule(IsIn(PendingEtc), "Invalid status value")])

  const ReservationValidation: seq<Chain> := [
    Chain(["userId"], true, [Rule(IsInt(None), "Valid user ID is required")]),
    EventIdChain,
    Chain(["placeId"], true, [Rule(IsInt(None), "Valid place ID is required")]),
    TicketsChain,
    PersonsChain,
    VisitChain,
    Chain(["paymentMethod"], true, [Rule(IsString, "Valid payment method is required")]),
    StatusChain]

  const EndDateChain := Chain(["endDate"], false,
    [Rule(Format("ISO8601"), "Valid end date is required"), Rule(After("startDate"), "End date must be after start date")])
  const TicketPriceChain := Chain(["ticketPrice"], true, [Rule(IsFloat(Some(0.0), None), "Ticket price must be positive")])
  const CapacityChain := Chain(["capacity"], true, [Rule(IsInt(Some(1)), "Capacity must be at least 1")])

  const EventValidation: seq<Chain> := [
    Chain(["title"], false, [Rule(NotEmpty, "Title is required")]),
    Chain(["description"], true, [Rule(IsString, "Description must be a string")]),
    Chain(["startDate"], false, [Rule(Format("ISO8601"), "Valid start date is required")]),
    EndDateChain,
    Chain(["location"], true, [Rule(IsString, "Location must be a string")]),
    Chain(["organizer"], true, [Rule(IsString, "Organizer must be a string")]),
    TicketPriceChain,
    CapacityChain,
    Chain(["images"], true, [Rule(IsArray, "Images must be an array")])]

  const DiscountChain := Chain(["discount_percent"], false,
    [Rule(IsFloat(Some(0.0), Some(100.0)), "Discount must be between 0 and 100")])
  const PromoEndChain := Chain(["end_date"], false,
    [Rule(Format("date"), "Valid end date is required"), Rule(After("start_date"), "End date must be after start date")])

  const PromotionValidation: seq<Chain> := [
    Chain(["place_id"], false, [Rule(IsInt(None), "Place ID is required")]),
    Chain(["title"], false, [Rule(NotEmpty, "Title is required")]),
    DiscountChain,
    Chain(["start_date"], false, [Rule(Format("date"), "Valid start date is required")]),
    PromoEndChain]

  const RoleChain := Chain(["role"], true, [Rule(IsIn(UserRoles), "Invalid role")])
  const UserStatusChain := Chain(["status"], true, [Rule(IsIn(UserStatuses), "Invalid status")])

  const UserUpdateValidation: seq<Chain> := [
    Chain(["email"], true, [Rule(Format("email"), "Invalid email")]),
    Chain(["password"], true, [Rule(MinLength(8), "Password must be at least 8 characters")]),
    RoleChain,
    UserStatusChain]

  const CategoryChain := Chain(["category"], true, [Rule(IsIn(Categories), "Invalid category")])
  const NearChain := Chain(["near"], true, [Rule(NearFormat, "Near parameter must be in format lat,lng[,distance]")])
  const SortChain := Chain(["sort"], true, [Rule(IsIn(Sorts), "Invalid sort parameter")])

  /** Run on the query string. */
  const SearchValidation: seq<Chain> := [CategoryChain, NearChain, SortChain]

  // ---------------------------------------------------------------------
  // Enumerations

  /** A reservation status, when given, is one of the four states. */
  lemma ReservationStatusRule(body: seq<Field>, env: Env)
    ensures "Invalid status value" in Errors(ReservationValidation, body, env)
      <==> Get(body, "status") != Undefined && Shown(Get(body, "status")) !in PendingEtc
  {
    ReservationStatusOwner(body, env);
    ReservationStatusInChain(body, env);
  }

  lemma ReservationStatusOwner(body: seq<Field>, env: Env)
    ensures "Invalid status value" in Errors(ReservationValidation, body, env) <==> "Invalid status value" in ChainErrors(StatusChain, body, env)
  {
    OnlyChain(ReservationValidation, 7, "Invalid status value", body, env);
  }

  lemma ReservationStatusInChain(body: seq<Field>, env: Env)
    ensures "Invalid status value" in ChainErrors(StatusChain, body, env)
      <==> Get(body, "status") != Undefined && Shown(Get(body, "status")) !in PendingEtc
  {
    OneRule(StatusChain, body, env, "Invalid status value");
  }

  /** A role, when given, is admin, user, premium or provider. */
  lemma RoleRule(body: seq<Field>, env: Env)
    ensures "Invalid role" in Errors(UserUpdateValidation, body, env)
      <==> Get(body, "role") != Undefined && Shown(Get(body, "role")) !in UserRoles
  {
    RoleOwner(body, env);
    RoleInChain(body, env);
  }

  lemma RoleOwner(body: seq<Field>, env: Env)
    ensures "Invalid role" in Errors(UserUpdateValidation, body, env) <==> "Invalid role" in ChainErrors(RoleChain, body, env)
  {
    OnlyChain(UserUpdateValidation, 2, "Invalid role", body, env);
  }

  lemma RoleInChain(body: seq<Field>, env: Env)
    ensures "Invalid role" in ChainErrors(RoleChain, body, env)
      <==> Get(body, "role") != Undefined && Shown(Get(body, "role")) !in UserRoles
  {
    OneRule(RoleChain, body, env, "Invalid role");
  }

  /** An account status, when given, is active, blocked or inactive. */
  lemma UserStatusRule(body: seq<Field>, env: Env)
    ensures "Invalid status" in Errors(UserUpdateValidation, body, env)
      <==> Get(body, "status") != Undefined && Shown(Get(body, "status")) !in UserStatuses
  {
    UserStatusOwner(body, env);
    UserStatusInChain(body, env);
  }

  lemma UserStatusOwner(body: seq<Field>, env: Env)
    ensures "Invalid status" in Errors(UserUpdateValidation, body, env) <==> "Invalid status" in ChainErrors(UserStatusChain, body, env)
  {
    OnlyChain(UserUpdateValidation, 3, "Invalid status", body, env);
  }

  lemma UserStatusInChain(body: seq<Field>, env: Env)
    ensures "Invalid status" in ChainErrors(UserStatusChain, body, env)
      <==> Get(body, "status") != Undefined && Shown(Get(body, "status")) !in UserStatuses
  {
    OneRule(UserStatusChain, body, env, "Invalid status");
  }

  /** A search category, when given, is one of the five. */
  lemma CategoryRule(query: seq<Field>, env: Env)
    ensures "Invalid category" in Errors(SearchValidation, query, env)
      <==> Get(query, "category") != Undefined && Shown(Get(query, "category")) !in Categories
  {
    CategoryOwner(query, env);
    CategoryInChain(query, env);
  }

  lemma CategoryOwner(query: seq<Field>, env: Env)
    ensures "Invalid category" in Errors(SearchValidation, query, env) <==> "Invalid category" in ChainErrors(CategoryChain, query, env)
  {
    OnlyChain(SearchValidation, 0, "Invalid category", query, env);
  }

  lemma CategoryInChain(query: seq<Field>, env: Env)
    ensures "Invalid category" in ChainErrors(CategoryChain, query, env)
      <==> Get(query, "category") != Undefined && Shown(Get(query, "category")) !in Categories
  {
    OneRule(CategoryChain, query, env, "Invalid category");
  }

  /** A sort key, when given, is one of the four. */
  lemma SortRule(query: seq<Field>, env: Env)
    ensures "Invalid sort parameter" in Errors(SearchValidation, query, env)
      <==> Get(query, "sort") != Undefined && Shown(Get(query, "sort")) !in Sorts
  {
    SortOwner(query, env);
    SortInChain(query, env);
  }

  lemma SortOwner(query: seq<Field>, env: Env)
    ensures "Invalid sort parameter" in Errors(SearchValidation, query, env) <==> "Invalid sort parameter" in ChainErrors(SortChain, query, env)
  {
    OnlyChain(SearchValidation, 2, "Invalid sort parameter", query, env);
  }

  lemma SortInChain(query: seq<Field>, env: Env)
    ensures "Invalid sort parameter" in ChainErrors(SortChain, query, env)
      <==> Get(query, "sort") != Undefined && Shown(Get(query, "sort")) !in Sorts
  {
    OneRule(SortChain, query, env, "Invalid sort parameter");
  }

  /** A `near`, when given, is in the grammar. */
  lemma NearRule(query: seq<Field>, env: Env)
    ensures "Near parameter must be in format lat,lng[,distance]" in Errors(SearchValidation, query, env)
      <==> Get(query, "near") != Undefined && !NearMatches(Shown(Get(query, "near")))
  {
    NearOwner(query, env);
    NearInChain(query, env);
  }

  lemma NearOwner(query: seq<Field>, env: Env)
    ensures "Near parameter must be in format lat,lng[,distance]" in Errors(SearchValidation, query, env) <==> "Near parameter must be in format lat,lng[,distance]" in ChainErrors(NearChain, query, env)
  {
    OnlyChain(SearchValidation, 1, "Near parameter must be in format lat,lng[,distance]", query, env);
  }

  lemma NearInChain(query: seq<Field>, env: Env)
    ensures "Near parameter must be in format lat,lng[,distance]" in ChainErrors(NearChain, query, env)
      <==> Get(query, "near") != Undefined && !NearMatches(Shown(Get(query, "near")))
  {
    OneRule(NearChain, query, env, "Near parameter must be in format lat,lng[,distance]");
  }

  // ---------------------------------------------------------------------
  // Numeric bounds

  /** A rating must be a number in [0, 5], and must be there. */
  lemma RatingRule(body: seq<Field>, env: Env)
    ensures "Rating must be between 0 and 5" in Errors(ReviewValidation, body, env)
      <==> var x := FloatText(Shown(Get(body, "rating")));
           !(x.Some? && 0.0 <= x.value <= 5.0)
  {
    RatingOwner(body, env);
    RatingInChain(body, env);
  }

  lemma RatingOwner(body: seq<Field>, env: Env)
    ensures "Rating must be between 0 and 5" in Errors(ReviewValidation, body, env) <==> "Rating must be between 0 and 5" in ChainErrors(RatingChain, body, env)
  {
    OnlyChain(ReviewValidation, 1, "Rating must be between 0 and 5", body, env);
  }

  lemma RatingInChain(body: seq<Field>, env: Env)
    ensures "Rating must be between 0 and 5" in ChainErrors(RatingChain, body, env)
      <==> var x := FloatText(Shown(Get(body, "rating")));
           !(x.Some? && 0.0 <= x.value <= 5.0)
  {
    OneRule(RatingChain, body, env, "Rating must be between 0 and 5");
  }

  /** A discount must be a number in [0, 100]. */
  lemma DiscountRule(body: seq<Field>, env: Env)
    ensures "Discount must be between 0 and 100" in Errors(PromotionValidation, body, env)
      <==> var x := FloatText(Shown(Get(body, "discount_percent")));
           !(x.Some? && 0.0 <= x.value <= 100.0)
  {
    DiscountOwner(body, env);
    DiscountInChain(body, env);
  }

  lemma DiscountOwner(body: seq<Field>, env: Env)
    ensures "Discount must be between 0 and 100" in Errors(PromotionValidation, body, env) <==> "Discount must be between 0 and 100" in ChainErrors(DiscountChain, body, env)
  {
    OnlyChain(PromotionValidation, 2, "Discount must be between 0 and 100", body, env);
  }

  lemma DiscountInChain(body: seq<Field>, env: Env)
    ensures "Discount must be between 0 and 100" in ChainErrors(DiscountChain, body, env)
      <==> var x := FloatText(Shown(Get(body, "discount_percent")));
           !(x.Some? && 0.0 <= x.value <= 100.0)
  {
    OneRule(DiscountChain, body, env, "Discount must be between 0 and 100");
  }

  /** A ticket price, when given, is a number at least 0. */
  lemma TicketPriceRule(body: seq<Field>, env: Env)
    ensures "Ticket price must be positive" in Errors(EventValidation, body, env)
      <==> var v := Get(body, "ticketPrice");
           v != Undefined && !(FloatText(Shown(v)).Some? && FloatText(Shown(v)).value >= 0.0)
  {
    TicketPriceOwner(body, env);
    TicketPriceInChain(body, env);
  }

  lemma TicketPriceOwner(body: seq<Field>, env: Env)
    ensures "Ticket price must be positive" in Errors(EventValidation, body, env) <==> "Ticket price must be positive" in ChainErrors(TicketPriceChain, body, env)
  {
    OnlyChain(EventValidation, 6, "Ticket price must be positive", body, env);
  }

  lemma TicketPriceInChain(body: seq<Field>, env: Env)
    ensures "Ticket price must be positive" in ChainErrors(TicketPriceChain, body, env)
      <==> var v := Get(body, "ticketPrice");
           v != Undefined && !(FloatText(Shown(v)).Some? && FloatText(Shown(v)).value >= 0.0)
  {
    OneRule(TicketPriceChain, body, env, "Ticket price must be positive");
  }

  /** A numeric rating is refused exactly when it lies outside [0, 5]. */
  lemma RatingOfNumber(body: seq<Field>, env: Env, x: real)
    requires Get(body, "rating") == Num(x) && Terminates(x)
    ensures "Rating must be between 0 and 5" in Errors(ReviewValidation, body, env) <==> !(0.0 <= x <= 5.0)
  {
    RatingRule(body, env);
    ShownReadsBack(x);
  }

  /** A numeric discount is refused exactly when it lies outside [0, 100]. */
  lemma DiscountOfNumber(body: seq<Field>, env: Env, x: real)
    requires Get(body, "discount_percent") == Num(x) && Terminates(x)
    ensures "Discount must be between 0 and 100" in Errors(PromotionValidation, body, env) <==> !(0.0 <= x <= 100.0)
  {
    DiscountRule(body, env);
    ShownReadsBack(x);
  }

  /** A numeric ticket price is refused exactly when it is negative. */
  lemma TicketPriceOfNumber(body: seq<Field>, env: Env, x: real)
    requires Get(body, "ticketPrice") == Num(x) && Terminates(x)
    ensures "Ticket price must be positive" in Errors(EventValidation, body, env) <==> x < 0.0
  {
    TicketPriceRule(body, env);
    ShownReadsBack(x);
  }

  /** A capacity, when given, is an integer at least 1. */
  lemma CapacityRule(body: seq<Field>, env: Env)
    ensures "Capacity must be at least 1" in Errors(EventValidation, body, env)
      <==> var v := Get(body, "capacity");
           v != Undefined && !(IntText(Shown(v)).Some? && IntText(Shown(v)).value >= 1)
  {
    CapacityOwner(body, env);
    CapacityInChain(body, env);
  }

  lemma CapacityOwner(body: seq<Field>, env: Env)
    ensures "Capacity must be at least 1" in Errors(EventValidation, body, env) <==> "Capacity must be at least 1" in ChainErrors(CapacityChain, body, env)
  {
    OnlyChain(EventValidation, 7, "Capacity must be at least 1", body, env);
  }

  lemma CapacityInChain(body: seq<Field>, env: Env)
    ensures "Capacity must be at least 1" in ChainErrors(CapacityChain, body, env)
      <==> var v := Get(body, "capacity");
           v != Undefined && !(IntText(Shown(v)).Some? && IntText(Shown(v)).value >= 1)
  {
    OneRule(CapacityChain, body, env, "Capacity must be at least 1");
  }

  /** A ticket count, when given, is an integer at least 1. */
  lemma TicketCountRule(body: seq<Field>, env: Env)
    ensures "Number of tickets must be at least 1" in Errors(ReservationValidation, body, env)
      <==> var v := Get(body, "numberOfTickets");
           v != Undefined && !(IntText(Shown(v)).Some? && IntText(Shown(v)).value >= 1)
  {
    TicketCountOwner(body, env);
    TicketCountInChain(body, env);
  }

  lemma TicketCountOwner(body: seq<Field>, env: Env)
    ensures "Number of tickets must be at least 1" in Errors(ReservationValidation, body, env) <==> "Number of tickets must be at least 1" in ChainErrors(TicketsChain, body, env)
  {
    OnlyChain(ReservationValidation, 3, "Number of tickets must be at least 1", body, env);
  }

  lemma TicketCountInChain(body: seq<Field>, env: Env)
    ensures "Number of tickets must be at least 1" in ChainErrors(TicketsChain, body, env)
      <==> var v := Get(body, "numberOfTickets");
           v != Undefined && !(IntText(Shown(v)).Some? && IntText(Shown(v)).value >= 1)
  {
    TwoRules(TicketsChain, body, env, "Number of tickets must be at least 1");
  }

  /** A person count, when given, is an integer at least 1. */
  lemma PersonCountRule(body: seq<Field>, env: Env)
    ensures "Number of persons must be at least 1" in Errors(ReservationValidation, body, env)
      <==> var v := Get(body, "numberOfPersons");
           v != Undefined && !(IntText(Shown(v)).Some? && IntText(Shown(v)).value >= 1)
  {
    PersonCountOwner(body, env);
    PersonCountInChain(body, env);
  }

  lemma PersonCountOwner(body: seq<Field>, env: Env)
    ensures "Number of persons must be at least 1" in Errors(ReservationValidation, body, env) <==> "Number of persons must be at least 1" in ChainErrors(PersonsChain, body, env)
  {
    OnlyChain(ReservationValidation, 4, "Number of persons must be at least 1", body, env);
  }

  lemma PersonCountInChain(body: seq<Field>, env: Env)
    ensures "Number of persons must be at least 1" in ChainErrors(PersonsChain, body, env)
      <==> var v := Get(body, "numberOfPersons");
           v != Undefined && !(IntText(Shown(v)).Some? && IntText(Shown(v)).value >= 1)
  {
    TwoRules(PersonsChain, body, env, "Number of persons must be at least 1");
  }

  /** A count sent as a JSON integer n is accepted exactly when n >= 1. */
  lemma IntegerCount(n: int, body: seq<Field>, env: Env)
    requires Get(body, "numberOfTickets") == IntNum(n)
    ensures "Number of tickets must be at least 1" !in Errors(ReservationValidation, body, env) <==> n >= 1
  {
    TicketCountRule(body, env);
    IntTextRoundTrip(n);
    assert Shown(IntNum(n)) == IntToStr(n);
  }

  // ---------------------------------------------------------------------
  // End after start

  /** An event's end must come strictly after its start; when either date
      does not parse the comparison is false and nothing is reported. */
  lemma EventDatesRule(body: seq<Field>, env: Env)
    ensures "End date must be after start date" in Errors(EventValidation, body, env)
      <==> var e, s := env.time(Get(body, "endDate")), env.time(Get(body, "startDate"));
           e.Some? && s.Some? && e.value <= s.value
  {
    EventDatesOwner(body, env);
    EventDatesInChain(body, env);
  }

  lemma EventDatesOwner(body: seq<Field>, env: Env)
    ensures "End date must be after start date" in Errors(EventValidation, body, env) <==> "End date must be after start date" in ChainErrors(EndDateChain, body, env)
  {
    OnlyChain(EventValidation, 3, "End date must be after start date", body, env);
  }

  lemma EventDatesInChain(body: seq<Field>, env: Env)
    ensures "End date must be after start date" in ChainErrors(EndDateChain, body, env)
      <==> var e, s := env.time(Get(body, "endDate")), env.time(Get(body, "startDate"));
           e.Some? && s.Some? && e.value <= s.value
  {
    TwoRules(EndDateChain, body, env, "End date must be after start date");
  }

  /** The same rule for a promotion's `end_date` and `start_date`. */
  lemma PromotionDatesRule(body: seq<Field>, env: Env)
    ensures "End date must be after start date" in Errors(PromotionValidation, body, env)
      <==> var e, s := env.time(Get(body, "end_date")), env.time(Get(body, "start_date"));
           e.Some? && s.Some? && e.value <= s.value
  {
    PromotionDatesOwner(body, env);
    PromotionDatesInChain(body, env);
  }

  lemma PromotionDatesOwner(body: seq<Field>, env: Env)
    ensures "End date must be after start date" in Errors(PromotionValidation, body, env) <==> "End date must be after start date" in ChainErrors(PromoEndChain, body, env)
  {
    OnlyChain(PromotionValidation, 4, "End date must be after start date", body, env);
  }

  lemma PromotionDatesInChain(body: seq<Field>, env: Env)
    ensures "End date must be after start date" in ChainErrors(PromoEndChain, body, env)
      <==> var e, s := env.time(Get(body, "end_date")), env.time(Get(body, "start_date"));
           e.Some? && s.Some? && e.value <= s.value
  {
    TwoRules(PromoEndChain, body, env, "End date must be after start date");
  }

  // ---------------------------------------------------------------------
  // Required together

  /* As written, the "required for ..." closures sit in `optional()`
     chains, so they only fire for a field that is present but falsy; a
     missing field is never reported. */

  /** An event reservation names an event or a place, checked only when
      `eventId` is sent. */
  lemma EitherIdRule(body: seq<Field>, env: Env)
    ensures EitherMsg in Errors(ReservationValidation, body, env)
      <==> Get(body, "eventId") != Undefined && !Truthy(Get(body, "eventId")) && !Truthy(Get(body, "placeId"))
  {
    EitherIdOwner(body, env);
    EitherIdInChain(body, env);
  }

  lemma EitherIdOwner(body: seq<Field>, env: Env)
    ensures EitherMsg in Errors(ReservationValidation, body, env) <==> EitherMsg in ChainErrors(EventIdChain, body, env)
  {
    OnlyChain(ReservationValidation, 1, EitherMsg, body, env);
  }

  lemma EitherIdInChain(body: seq<Field>, env: Env)
    ensures EitherMsg in ChainErrors(EventIdChain, body, env)
      <==> Get(body, "eventId") != Undefined && !Truthy(Get(body, "eventId")) && !Truthy(Get(body, "placeId"))
  {
    TwoRules(EventIdChain, body, env, EitherMsg);
  }

  /** An event reservation gives a ticket count, checked only when
      `numberOfTickets` is sent. */
  lemma TicketsRequiredRule(body: seq<Field>, env: Env)
    ensures TicketsMsg in Errors(ReservationValidation, body, env)
      <==> Get(body, "numberOfTickets") != Undefined && Truthy(Get(body, "eventId")) && !Truthy(Get(body, "numberOfTickets"))
  {
    TicketsRequiredOwner(body, env);
    TicketsRequiredInChain(body, env);
  }

  lemma TicketsRequiredOwner(body: seq<Field>, env: Env)
    ensures TicketsMsg in Errors(ReservationValidation, body, env) <==> TicketsMsg in ChainErrors(TicketsChain, body, env)
  {
    OnlyChain(ReservationValidation, 3, TicketsMsg, body, env);
  }

  lemma TicketsRequiredInChain(body: seq<Field>, env: Env)
    ensures TicketsMsg in ChainErrors(TicketsChain, body, env)
      <==> Get(body, "numberOfTickets") != Undefined && Truthy(Get(body, "eventId")) && !Truthy(Get(body, "numberOfTickets"))
  {
    TwoRules(TicketsChain, body, env, TicketsMsg);
  }

  /** A place reservation gives a person count, checked only when
      `numberOfPersons` is sent. */
  lemma PersonsRequiredRule(body: seq<Field>, env: Env)
    ensures PersonsMsg in Errors(ReservationValidation, body, env)
      <==> Get(body, "numberOfPersons") != Undefined && Truthy(Get(body, "placeId")) && !Truthy(Get(body, "numberOfPersons"))
  {
    PersonsRequiredOwner(body, env);
    PersonsRequiredInChain(body, env);
  }

  lemma PersonsRequiredOwner(body: seq<Field>, env: Env)
    ensures PersonsMsg in Errors(ReservationValidation, body, env) <==> PersonsMsg in ChainErrors(PersonsChain, body, env)
  {
    OnlyChain(ReservationValidation, 4, PersonsMsg, body, env);
  }

  lemma PersonsRequiredInChain(body: seq<Field>, env: Env)
    ensures PersonsMsg in ChainErrors(PersonsChain, body, env)
      <==> Get(body, "numberOfPersons") != Undefined && Truthy(Get(body, "placeId")) && !Truthy(Get(body, "numberOfPersons"))
  {
    TwoRules(PersonsChain, body, env, PersonsMsg);
  }

  /** A place reservation gives a visit date, checked only when `visitDate`
      is sent. */
  lemma VisitRequiredRule(body: seq<Field>, env: Env)
    ensures VisitMsg in Errors(ReservationValidation, body, env)
      <==> Get(body, "visitDate") != Undefined && Truthy(Get(body, "placeId")) && !Truthy(Get(body, "visitDate"))
  {
    VisitRequiredOwner(body, env);
    VisitRequiredInChain(body, env);
  }

  lemma VisitRequiredOwner(body: seq<Field>, env: Env)
    ensures VisitMsg in Errors(ReservationValidation, body, env) <==> VisitMsg in ChainErrors(VisitChain, body, env)
  {
    OnlyChain(ReservationValidation, 5, VisitMsg, body, env);
  }

  lemma VisitRequiredInChain(body: seq<Field>, env: Env)
    ensures VisitMsg in ChainErrors(VisitChain, body, env)
      <==> Get(body, "visitDate") != Undefined && Truthy(Get(body, "placeId")) && !Truthy(Get(body, "visitDate"))
  {
    TwoRules(VisitChain, body, env, VisitMsg);
  }

  /** A place reservation with neither a person count nor a visit date, and
      an empty body that names neither an event nor a place, are not
      refused for it. */
  lemma MissingFieldsPass(env: Env)
    ensures PersonsMsg !in Errors(ReservationValidation, [Field("placeId", Num(3.0))], env)
    ensures VisitMsg !in Errors(ReservationValidation, [Field("placeId", Num(3.0))], env)
    ensures EitherMsg !in Errors(ReservationValidation, [], env)
  {
    PersonsRequiredRule([Field("placeId", Num(3.0))], env);
    VisitRequiredRule([Field("placeId", Num(3.0))], env);
    EitherIdRule([], env);
  }

  /* The intended array: the format checks stay optional, and each
     "required" closure runs in a chain of its own that is not, so a
     missing field is reported too. */

  const EitherFixedChain := Chain(["eventId"], false, [Rule(EitherId, EitherMsg)])
  const TicketsFixedChain := Chain(["numberOfTickets"], false, [Rule(RequiredWith("eventId"), TicketsMsg)])
  const PersonsFixedChain := Chain(["numberOfPersons"], false, [Rule(RequiredWith("placeId"), PersonsMsg)])
  const VisitFixedChain := Chain(["visitDate"], false, [Rule(RequiredWith("placeId"), VisitMsg)])

  const ReservationValidationFixed: seq<Chain> := [
    Chain(["userId"], true, [Rule(IsInt(None), "Valid user ID is required")]),
    Chain(["eventId"], true, [Rule(IsInt(None), "Valid event ID is required")]),
    EitherFixedChain,
    Chain(["placeId"], true, [Rule(IsInt(None), "Valid place ID is required")]),
    Chain(["numberOfTickets"], true, [Rule(IsInt(Some(1)), "Number of tickets must be at least 1")]),
    TicketsFixedChain,
    Chain(["numberOfPersons"], true, [Rule(IsInt(Some(1)), "Number of persons must be at least 1")]),
    PersonsFixedChain,
    Chain(["visitDate"], true, [Rule(Format("ISO8601"), "Valid visit date is required")]),
    VisitFixedChain,
    Chain(["paymentMethod"], true, [Rule(IsString, "Valid payment method is required")]),
    StatusChain]

  /** With the fix, a reservation naming neither an event nor a place is
      always refused. */
  lemma EitherIdRuleFixed(body: seq<Field>, env: Env)
    ensures EitherMsg in Errors(ReservationValidationFixed, body, env)
      <==> !Truthy(Get(body, "eventId")) && !Truthy(Get(body, "placeId"))
  {
    EitherIdFixedOwner(body, env);
    EitherIdFixedInChain(body, env);
  }

  lemma EitherIdFixedOwner(body: seq<Field>, env: Env)
    ensures EitherMsg in Errors(ReservationValidationFixed, body, env) <==> EitherMsg in ChainErrors(EitherFixedChain, body, env)
  {
    OnlyChain(ReservationValidationFixed, 2, EitherMsg, body, env);
  }

  lemma EitherIdFixedInChain(body: seq<Field>, env: Env)
    ensures EitherMsg in ChainErrors(EitherFixedChain, body, env)
      <==> !Truthy(Get(body, "eventId")) && !Truthy(Get(body, "placeId"))
  {
    OneRule(EitherFixedChain, body, env, EitherMsg);
  }

  /** With the fix, an event reservation without a ticket count is refused. */
  lemma TicketsRequiredRuleFixed(body: seq<Field>, env: Env)
    ensures TicketsMsg in Errors(ReservationValidationFixed, body, env)
      <==> Truthy(Get(body, "eventId")) && !Truthy(Get(body, "numberOfTickets"))
  {
    TicketsRequiredFixedOwner(body, env);
    TicketsRequiredFixedInChain(body, env);
  }

  lemma TicketsRequiredFixedOwner(body: seq<Field>, env: Env)
    ensures TicketsMsg in Errors(ReservationValidationFixed, body, env) <==> TicketsMsg in ChainErrors(TicketsFixedChain, body, env)
  {
    OnlyChain(ReservationValidationFixed, 5, TicketsMsg, body, env);
  }

  lemma TicketsRequiredFixedInChain(body: seq<Field>, env: Env)
    ensures TicketsMsg in ChainErrors(TicketsFixedChain, body, env)
      <==> Truthy(Get(body, "eventId")) && !Truthy(Get(body, "numberOfTickets"))
  {
    OneRule(TicketsFixedChain, body, env, TicketsMsg);
  }

  /** With the fix, a place reservation without a person count is refused. */
  lemma PersonsRequiredRuleFixed(body: seq<Field>, env: Env)
    ensures PersonsMsg in Errors(ReservationValidationFixed, body, env)
      <==> Truthy(Get(body, "placeId")) && !Truthy(Get(body, "numberOfPersons"))
  {
    PersonsRequiredFixedOwner(body, env);
    PersonsRequiredFixedInChain(body, env);
  }

  lemma PersonsRequiredFixedOwner(body: seq<Field>, env: Env)
    ensures PersonsMsg in Errors(ReservationValidationFixed, body, env) <==> PersonsMsg in ChainErrors(PersonsFixedChain, body, env)
  {
    OnlyChain(ReservationValidationFixed, 7, PersonsMsg, body, env);
  }

  lemma PersonsRequiredFixedInChain(body: seq<Field>, env: Env)
    ensures PersonsMsg in ChainErrors(PersonsFixedChain, body, env)
      <==> Truthy(Get(body, "placeId")) && !Truthy(Get(body, "numberOfPersons"))
  {
    OneRule(PersonsFixedChain, body, env, PersonsMsg);
  }

  /** With the fix, a place reservation without a visit date is refused. */
  lemma VisitRequiredRuleFixed(body: seq<Field>, env: Env)
    ensures VisitMsg in Errors(ReservationValidationFixed, body, env)
      <==> Truthy(Get(body, "placeId")) && !Truthy(Get(body, "visitDate"))
  {
    VisitRequiredFixedOwner(body, env);
    VisitRequiredFixedInChain(body, env);
  }

  lemma VisitRequiredFixedOwner(body: seq<Field>, env: Env)
    ensures VisitMsg in Errors(ReservationValidationFixed, body, env) <==> VisitMsg in ChainErrors(VisitFixedChain, body, env)
  {
    OnlyChain(ReservationValidationFixed, 9, VisitMsg, body, env);
  }

  lemma VisitRequiredFixedInChain(body: seq<Field>, env: Env)
    ensures VisitMsg in ChainErrors(VisitFixedChain, body, env)
      <==> Truthy(Get(body, "placeId")) && !Truthy(Get(body, "visitDate"))
  {
    OneRule(VisitFixedChain, body, env, VisitMsg);
  }

  /** The bodies the array as written lets through are refused by the fixed
      one. */
  lemma MissingFieldsRefused(env: Env)
    ensures PersonsMsg in Errors(ReservationValidationFixed, [Field("placeId", Num(3.0))], env)
    ensures VisitMsg in Errors(ReservationValidationFixed, [Field("placeId", Num(3.0))], env)
    ensures EitherMsg in Errors(ReservationValidationFixed, [], env)
  {
    PersonsRequiredRuleFixed([Field("placeId", Num(3.0))], env);
    VisitRequiredRuleFixed([Field("placeId", Num(3.0))], env);
    EitherIdRuleFixed([], env);
  }
}
