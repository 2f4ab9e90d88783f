/** The API documentation generator (utils/apiDocGenerator.js): which lines
    of a route file declare an endpoint, the method, path and access label
    read from such a line, the description, parameter list and test example
    written for it, and the document assembled from all the route files.
    Reading a route file, the date and `JSON.stringify` are parameters. */
module ApiDoc {
  import opened Text
  import opened Js
  import opened Store

  // ---------------------------------------------------------------------
  // Reading a route line

  datatype Method = GET | POST | PUT | DELETE | PATCH

  /** The verb as the pattern spells it. */
  function VerbText(m: Method): string
  {
    match m
    case GET => "get"
    case POST => "post"
    case PUT => "put"
    case DELETE => "delete"
    case PATCH => "patch"
  }

  /** `endpoint.method` */
  function MethodName(m: Method): string
  {
    match m
    case GET => "GET"
    case POST => "POST"
    case PUT => "PUT"
    case DELETE => "DELETE"
    case PATCH => "PATCH"
  }

  /** `s` starts with the lower-case pattern `pat`, ignoring ASCII case (the `i` flag). */
  predicate StartsWithI(s: string, pat: string)
  {
    |pat| <= |s| && Lower(s[..|pat|]) == pat
  }

  /** `router.` followed by the verb. */
  function Pattern(m: Method): string
  {
    "router." + VerbText(m)
  }

  /** The alternatives of `/router\.(get|post|put|delete|patch)/i` tried at the start of `s`. */
  function VerbAt(s: string): Option<Method>
  {
    if StartsWithI(s, Pattern(GET)) then Some(GET)
    else if StartsWithI(s, Pattern(POST)) then Some(POST)
    else if StartsWithI(s, Pattern(PUT)) then Some(PUT)
    else if StartsWithI(s, Pattern(DELETE)) then Some(DELETE)
    else if StartsWithI(s, Pattern(PATCH)) then Some(PATCH)
    else None
  }

  /** A regular-expression search: the result of `at` at the leftmost
      position of `s` where it has one. */
  function Leftmost<T>(s: string, at: string -> Option<T>): Option<T>
    decreases |s|
  {
    if at(s).Some? then at(s)
    else if s == [] then None
    else Leftmost(s[1..], at)
  }

  /** The search finds a match exactly when there is one, and then the one
      at the smallest position. */
  lemma {:induction false} LeftmostIsFirst<T>(s: string, at: string -> Option<T>)
    ensures Leftmost(s, at).Some? ==>
      exists i :: 0 <= i <= |s| && at(s[i..]) == Leftmost(s, at) && forall j :: 0 <= j < i ==> at(s[j..]).None?
    ensures Leftmost(s, at).None? ==> forall i :: 0 <= i <= |s| ==> at(s[i..]).None?
    decreases |s|
  {
    assert s[0..] == s;
    if at(s).None? && s != [] {
      LeftmostIsFirst(s[1..], at);
      if Leftmost(s, at).Some? {
        var i :| 0 <= i <= |s[1..]| && at(s[1..][i..]) == Leftmost(s[1..], at)
          && forall j :: 0 <= j < i ==> at(s[1..][j..]).None?;
        assert s[1..][i..] == s[i + 1..];
        forall j | 0 <= j < i + 1
          ensures at(s[j..]).None?
        {
          if j > 0 {
            assert s[1..][j - 1..] == s[j..];
          }
        }
      } else {
        forall i | 0 <= i <= |s|
          ensures at(s[i..]).None?
        {
          if i > 0 {
            assert s[1..][i - 1..] == s[i..];
          }
        }
      }
    }
  }

  /** The verb of the leftmost match of the route pattern, if any. */
  function FindVerb(s: string): Option<Method>
  {
    Leftmost(s, VerbAt)
  }

  /** The pattern's letters, upper-cased, are the method's name whatever
      their case in the line. */
  lemma UpperOfLower(c: char, x: char)
    requires LowerChar(c) == x && 'a' <= x <= 'z'
    ensures UpperChar(c) == UpperChar(x)
  {
  }

  /** `line.match(...)[1].toUpperCase()`: the captured verb, upper-cased, is
      the method's name. */
  /** The verbs are lower-case letters that upper-case to the method names. */
  lemma VerbLetters(m: Method)
    ensures |VerbText(m)| == |MethodName(m)|
    ensures forall k :: 0 <= k < |VerbText(m)| ==>
      'a' <= VerbText(m)[k] <= 'z' && UpperChar(VerbText(m)[k]) == MethodName(m)[k]
  {
  }

  /** `line.match(...)[1].toUpperCase()`: the captured verb, upper-cased, is
      the method's name. */
  lemma CapturedName(s: string, m: Method)
    requires VerbAt(s) == Some(m)
    ensures 7 + |VerbText(m)| <= |s| && Upper(s[7..7 + |VerbText(m)|]) == MethodName(m)
  {
    var pat := Pattern(m);
    assert StartsWithI(s, pat);
    var t := s[7..7 + |VerbText(m)|];
    VerbLetters(m);
    forall k | 0 <= k < |t|
      ensures UpperChar(t[k]) == MethodName(m)[k]
    {
      assert Lower(s[..|pat|])[7 + k] == pat[7 + k];
      UpperOfLower(t[k], VerbText(m)[k]);
    }
  }

  /** `'([^']+)'` tried at the start of `s`: a quote, at least one other
      character, and the next quote. */
  function QuotedAt(s: string): Option<string>
  {
    if s != [] && s[0] == '\'' && '\'' in s[1..] && IndexOf(s[1..], '\'') > 0
    then Some(s[1..1 + IndexOf(s[1..], '\'')])
    else None
  }

  /** The group of the leftmost match of `'([^']+)'`, if any. */
  function FirstQuoted(s: string): Option<string>
  {
    Leftmost(s, QuotedAt)
  }

  const NoPath := "chemin non détecté"

  /** `pathMatch ? pathMatch[1] : 'chemin non détecté'` */
  function PathOf(line: string): string
  {
    match FirstQuoted(line)
    case Some(p) => p
    case None => NoPath
  }

  /** A quoted path is a non-empty run without quotes, found between two quotes. */
  lemma QuotedShape(s: string)
    requires QuotedAt(s).Some?
    ensures var p := QuotedAt(s).value;
      |p| >= 1 && '\'' !in p && |p| + 2 <= |s| && s[..|p| + 2] == ['\''] + p + ['\'']
  {
    var j := IndexOf(s[1..], '\'');
    assert s[..j + 2] == [s[0]] + s[1..1 + j] + [s[1 + j]];
  }

  /** A line without a single quote, such as one written with double quotes,
      gets the fallback path. */
  lemma NoQuoteNoPath(line: string)
    requires '\'' !in line
    ensures PathOf(line) == NoPath
  {
    forall i | 0 <= i <= |line|
      ensures QuotedAt(line[i..]).None?
    {
      if i < |line| {
        assert line[i..][0] == line[i];
      }
    }
    LeftmostIsFirst(line, QuotedAt);
  }

  /** One route read from a line. */
  datatype Endpoint = Endpoint(verb: Method, path: string, protected: bool, admin: bool)

  /** The body of `routeLines.forEach`: an endpoint for a route line, nothing for any other. */
  function ParseLine(line: string): Option<Endpoint>
  {
    match FindVerb(line)
    case None => None
    case Some(m) => Some(Endpoint(m, PathOf(line), Contains(line, "protect"), Contains(line, "admin")))
  }

  const PublicAccess := "Public"
  const AdminAccess := "Administrateur uniquement"
  const UserAccess := "Utilisateur authentifié"

  /** The access label of an endpoint. */
  function Access(e: Endpoint): string
  {
    if e.protected then (if e.admin then AdminAccess else UserAccess) else PublicAccess
  }

  /** A route is documented as public exactly when its line does not mention
      `protect`, whatever it says about `admin`; it is admin-only exactly
      when it mentions both. */
  lemma AccessRules(line: string)
    requires ParseLine(line).Some?
    ensures Access(ParseLine(line).value) == PublicAccess <==> !Contains(line, "protect")
    ensures Access(ParseLine(line).value) == AdminAccess <==> Contains(line, "protect") && Contains(line, "admin")
  {
    assert PublicAccess[0] != AdminAccess[0] && PublicAccess[0] != UserAccess[0] && AdminAccess[0] != UserAccess[0];
  }

  // ---------------------------------------------------------------------
  // Description and parameters

  /** `routeFile.replace('Routes.js', '')` */
  function BaseName(file: string): string
  {
    ReplaceFirst(file, "Routes.js", "")
  }

  /** Removing the first occurrence of a pattern that does not start inside `x`. */
  lemma {:induction false} ReplaceFirstSuffix(x: string, pat: string)
    requires |pat| > 0 && pat[0] !in x
    ensures ReplaceFirst(x + pat, pat, "") == x
    decreases |x|
  {
    if x == [] {
      assert ([] + pat)[|pat|..] == [];
      assert x + pat == pat;
    } else {
      assert (x + pat)[0] == x[0] != pat[0];
      assert (x + pat)[1..] == x[1..] + pat;
      assert forall c :: c in x[1..] ==> c in x;
      ReplaceFirstSuffix(x[1..], pat);
    }
  }

  /** The route files are named `<base>Routes.js`, and the documentation
      calls each by its base. */
  lemma BaseNameStem(x: string)
    requires 'R' !in x
    ensures BaseName(x + "Routes.js") == x
  {
    ReplaceFirstSuffix(x, "Routes.js");
  }

  /** `getEndpointDescription`. The generic "interagir avec" text is for a
      method the route pattern never yields. */
  function Description(file: string, e: Endpoint): string
  {
    var b := BaseName(file);
    match e.verb
    case GET => if Contains(e.path, ":id") then "récupérer un(e) " + b + " spécifique" else "lister les " + b + "s"
    case POST => "créer un(e) nouveau(elle) " + b
    case PUT => "mettre à jour un(e) " + b + " existant(e)"
    case DELETE => "supprimer un(e) " + b
    case PATCH => "mettre à jour partiellement un(e) " + b
  }

  /** The description depends on the method alone, and for GET on whether
      the path has an `:id` parameter. */
  lemma DescriptionDeterminedBy(file: string, e1: Endpoint, e2: Endpoint)
    requires e1.verb == e2.verb
    requires e1.verb == GET ==> (Contains(e1.path, ":id") <==> Contains(e2.path, ":id"))
    ensures Description(file, e1) == Description(file, e2)
  {
  }

  /** Different methods are described differently. */
  lemma DescriptionTellsMethod(file: string, e1: Endpoint, e2: Endpoint)
    requires Description(file, e1) == Description(file, e2)
    ensures e1.verb == e2.verb
  {
  }

  const RegisterParams := ["nom: Nom de l'utilisateur", "prenom: Prénom de l'utilisateur", "email: Adresse email", "password: Mot de passe"]
  const LoginParams := ["email: Adresse email", "password: Mot de passe"]
  const PlaceParams := ["nom_place: Nom du lieu", "description: Description du lieu", "location: Adresse",
    "longitude: Coordonnée longitude", "latitude: Coordonnée latitude", "category: Catégorie du lieu"]
  const EventParams := ["title: Titre de l'événement", "place_id: ID du lieu associé", "start_date: Date de début",
    "end_date: Date de fin", "price: Prix (optionnel)"]
  const NoParams := "Aucun paramètre requis"

  function IdParam(base: string): string
  {
    "id: ID du/de la " + base
  }

  /** The user, place and event routes whose parameter list is replaced wholesale. */
  predicate Overridden(file: string, e: Endpoint)
  {
    (file == "userRoutes.js" && e.verb == POST && (Contains(e.path, "register") || Contains(e.path, "login")))
    || ((file == "placeRoutes.js" || file == "eventRoutes.js") && (e.verb == POST || e.verb == PUT))
  }

  /** The list `getEndpointParams` ends up with. */
  function ParamList(file: string, e: Endpoint): seq<string>
  {
    var ids := if Contains(e.path, ":id") then [IdParam(BaseName(file))] else [];
    if file == "userRoutes.js" then
      if e.verb == POST && Contains(e.path, "register") then RegisterParams
      else if e.verb == POST && Contains(e.path, "login") then LoginParams
      else ids
    else if file == "placeRoutes.js" && (e.verb == POST || e.verb == PUT) then PlaceParams
    else if file == "eventRoutes.js" && (e.verb == POST || e.verb == PUT) then EventParams
    else ids
  }

  /** `getEndpointParams` */
  function ParamsText(file: string, e: Endpoint): string
  {
    var ps := ParamList(file, e);
    if |ps| > 0 then Join(ps, ", ") else NoParams
  }

  /** The id entry is listed exactly when the path has `:id` and the list is
      not replaced; a replaced list never has it. */
  lemma IdEntryRule(file: string, e: Endpoint)
    ensures IdParam(BaseName(file)) in ParamList(file, e) <==> Contains(e.path, ":id") && !Overridden(file, e)
  {
    var id := IdParam(BaseName(file));
    assert id[0] == 'i';
    assert forall i :: 0 <= i < |RegisterParams| ==> RegisterParams[i][0] != 'i';
    assert forall i :: 0 <= i < |LoginParams| ==> LoginParams[i][0] != 'i';
    assert forall i :: 0 <= i < |PlaceParams| ==> PlaceParams[i][0] != 'i';
    assert forall i :: 0 <= i < |EventParams| ==> EventParams[i][0] != 'i';
  }

  /** The first entry of a join is its prefix. */
  lemma JoinPrefix(ps: seq<string>, sep: string)
    requires |ps| > 0
    ensures |ps[0]| <= |Join(ps, sep)| && Join(ps, sep)[..|ps[0]|] == ps[0]
  {
  }

  /** 'Aucun paramètre requis' is written exactly when the list is empty:
      every entry starts with its lower-case name, never with that text's
      capital A. */
  lemma NoParamsIffEmpty(file: string, e: Endpoint)
    ensures ParamsText(file, e) == NoParams <==> ParamList(file, e) == []
  {
    var ps := ParamList(file, e);
    if ps != [] {
      assert ps[0] != [] && ps[0][0] != 'A';
      JoinPrefix(ps, ", ");
      assert Join(ps, ", ")[0] == ps[0][0];
    }
  }

  // ---------------------------------------------------------------------
  // Test example

  /** The URL of the example request: the path is appended, with `:id` and
      `:userId` replaced by 1 and 2, except for the root path. */
  function ExampleUrl(file: string, path: string): string
  {
    var base := "http://localhost:3000/api/" + Lower(BaseName(file));
    if path != "/" then base + ReplaceAll(ReplaceAll(path, ":id", "1"), ":userId", "2") else base
  }

  predicate HasBody(m: Method)
  {
    m == POST || m == PUT || m == PATCH
  }

  /** The `requestBody` object of the example. */
  function RequestBody(file: string, path: string): seq<Field>
  {
    if file == "userRoutes.js" then
      if Contains(path, "register") then
        [Field("nom", Str("Dupont")), Field("prenom", Str("Jean")), Field("email", Str("jean.dupont@example.com")),
         Field("password", Str("motdepasse123"))]
      else if Contains(path, "login") then
        [Field("email", Str("jean.dupont@example.com")), Field("password", Str("motdepasse123"))]
      else if Contains(path, "status") then [Field("status", Str("actif"))]
      else [Field("nom", Str("Dupont")), Field("prenom", Str("Jean")), Field("email", Str("jean.dupont@example.com"))]
    else if file == "placeRoutes.js" then
      [Field("nom_place", Str("Café des Artistes")), Field("description", Str("Un café confortable au cœur de Jendouba")),
       Field("location", Str("123 Rue Principale, Jendouba")), Field("longitude", Num(8.7767)),
       Field("latitude", Num(36.5014)), Field("category", Str("restaurants"))]
    else if file == "eventRoutes.js" then
      [Field("title", Str("Festival de Musique")), Field("place_id", IntNum(1)),
       Field("start_date", Str("2023-08-15T18:00:00")), Field("end_date", Str("2023-08-15T23:00:00")),
       Field("price", Num(15.5))]
    else if file == "reviewRoutes.js" then
      [Field("place_id", IntNum(1)), Field("rating", Num(4.5)), Field("comment", Str("Excellent service et cadre agréable."))]
    else if file == "reservationRoutes.js" then
      [Field("place_id", IntNum(1)), Field("reservation_date", Str("2023-09-20")), Field("start_time", Str("19:00")),
       Field("end_time", Str("21:00")), Field("num_guests", IntNum(4))]
    else if file == "promotionRoutes.js" then
      [Field("place_id", IntNum(1)), Field("title", Str("Offre Spéciale Été")), Field("discount_percent", IntNum(15)),
       Field("start_date", Str("2023-07-01")), Field("end_date", Str("2023-08-31"))]
    else if file == "messagerieRoutes.js" then
      [Field("id_destinataire", IntNum(2)), Field("texte", Str("Bonjour, avez-vous des disponibilités pour ce week-end?"))]
    else []
  }

  /** The first four lines of the example. */
  function ExampleHead(file: string, e: Endpoint): string
  {
    var m := MethodName(e.verb);
    "// Exemple de requête " + m + "\n"
    + "fetch('" + ExampleUrl(file, e.path) + "', {\n"
    + "  method: '" + m + "',\n"
    + "  headers: { 'Content-Type': 'application/json' },\n"
  }

  /** The example up to its optional body line; `JSON.stringify(requestBody, null, 2)` is `stringify`. */
  function ExampleWithBody(file: string, e: Endpoint, stringify: seq<Field> -> string): string
  {
    var head := ExampleHead(file, e);
    if HasBody(e.verb) then head + "  body: JSON.stringify(" + stringify(RequestBody(file, e.path)) + ")\n"
    else head
  }

  /** The text of `getTestExample`. */
  function ExampleText(file: string, e: Endpoint, stringify: seq<Field> -> string): string
  {
    ExampleWithBody(file, e, stringify) + "})\n"
    + ".then(response => response.json())\n"
    + ".then(data => console.log('Réponse:', data))\n"
    + ".catch(error => console.error('Erreur:', error));"
  }

  /** `getTestExample`, accumulating `example` line by line. */
  method TestExample(file: string, e: Endpoint, stringify: seq<Field> -> string) returns (example: string)
    ensures example == ExampleText(file, e, stringify)
  {
    var url := "http://localhost:3000/api/" + Lower(BaseName(file));
    if e.path != "/" {
      url := url + ReplaceAll(ReplaceAll(e.path, ":id", "1"), ":userId", "2");
    }
    var m := MethodName(e.verb);
    example := "// Exemple de requête " + m + "\n";
    example := example + "fetch('" + url + "', {\n";
    example := example + "  method: '" + m + "',\n";
    example := example + "  headers: { 'Content-Type': 'application/json' },\n";
    assert example == ExampleHead(file, e);
    if e.verb == POST || e.verb == PUT || e.verb == PATCH {
      example := example + "  body: JSON.stringify(" + stringify(RequestBody(file, e.path)) + ")\n";
    }
    assert example == ExampleWithBody(file, e, stringify);
    example := example + "})\n";
    example := example + ".then(response => response.json())\n";
    example := example + ".then(data => console.log('Réponse:', data))\n";
    example := example + ".catch(error => console.error('Erreur:', error));";
  }

  /** Only POST, PUT and PATCH examples carry a body: for any other method
      the example does not depend on how bodies are serialised. */
  lemma NoBodyIndependent(file: string, e: Endpoint, s1: seq<Field> -> string, s2: seq<Field> -> string)
    requires !HasBody(e.verb)
    ensures ExampleText(file, e, s1) == ExampleText(file, e, s2)
  {
  }

  /** A POST, PUT or PATCH example contains the serialised request body. */
  lemma BodyShown(file: string, e: Endpoint, stringify: seq<Field> -> string)
    requires HasBody(e.verb)
    ensures Contains(ExampleText(file, e, stringify), stringify(RequestBody(file, e.path)))
  {
    var pre := ExampleHead(file, e) + "  body: JSON.stringify(";
    var body := stringify(RequestBody(file, e.path));
    var x := pre + body;
    assert ExampleWithBody(file, e, stringify) == x + ")\n";
    assert x[|pre|..|pre| + |body|] == body;
    ContainsAt(x, body, |pre|);
    ContainsExtended(x, ")\n", body);
    ContainsExtended(x + ")\n", "})\n", body);
    ContainsExtended(x + ")\n" + "})\n", ".then(response => response.json())\n", body);
    ContainsExtended(x + ")\n" + "})\n" + ".then(response => response.json())\n",
      ".then(data => console.log('Réponse:', data))\n", body);
    ContainsExtended(x + ")\n" + "})\n" + ".then(response => response.json())\n"
      + ".then(data => console.log('Réponse:', data))\n", ".catch(error => console.error('Erreur:', error));", body);
  }

  /** Text appended after an occurrence keeps it. */
  lemma ContainsExtended(x: string, y: string, sub: string)
    requires Contains(x, sub)
    ensures Contains(x + y, sub)
  {
    var i: nat :| i <= |x| && OccursAt(x, sub, i);
    assert (x + y)[i..i + |sub|] == x[i..i + |sub|];
    ContainsAt(x + y, sub, i);
  }

  // --- the path placeholders are all replaced

  lemma ReplaceAllNotStart(t: string, pat: string, rep: string)
    requires |pat| > 0 && t != [] && !StartsWith(t, pat)
    ensures ReplaceAll(t, pat, rep) == [t[0]] + ReplaceAll(t[1..], pat, rep)
  {
  }

  /** An occurrence is at the start or in the tail. */
  lemma ContainsSplit(s: string, pat: string)
    requires s != []
    ensures Contains(s, pat) ==> StartsWith(s, pat) || Contains(s[1..], pat)
  {
    if Contains(s, pat) {
      var i: nat :| i <= |s| && OccursAt(s, pat, i);
      if i > 0 {
        assert s[1..][i - 1..i - 1 + |pat|] == s[i..i + |pat|];
        ContainsAt(s[1..], pat, i - 1);
      }
    }
  }

  /** A string does not start with a pattern whose first character it does not have. */
  lemma HeadNotStart(s: string, pat: string)
    requires s != [] && pat != [] && s[0] != pat[0]
    ensures !StartsWith(s, pat)
  {
    if |pat| <= |s| {
      assert s[..|pat|][0] == s[0];
    }
  }

  /** A replacement whose text starts with a character `w` lacks does not
      create `w` at the start: a result starting with `w` comes from an
      input starting with `w`. */
  lemma {:induction false} ReplacedPrefix(t: string, pat: string, rep: string, w: string)
    requires |pat| > 0 && rep != [] && rep[0] !in w
    ensures StartsWith(ReplaceAll(t, pat, rep), w) ==> StartsWith(t, w)
    decreases |t|
  {
    var r := ReplaceAll(t, pat, rep);
    if w == [] || |t| < |pat| {
    } else if StartsWith(t, pat) {
      assert r == rep + ReplaceAll(t[|pat|..], pat, rep);
      HeadNotStart(r, w);
    } else {
      ReplaceAllNotStart(t, pat, rep);
      var r1 := ReplaceAll(t[1..], pat, rep);
      ReplacedPrefix(t[1..], pat, rep, w[1..]);
      if StartsWith(r, w) {
        assert r1[..|w| - 1] == r[1..|w|] == w[1..];
        assert t[..|w|] == [t[0]] + t[1..][..|w| - 1];
      }
    }
  }

  /** An occurrence in a suffix is an occurrence. */
  lemma DropContains(s: string, k: nat, pat: string)
    requires k <= |s| && Contains(s[k..], pat)
    ensures Contains(s, pat)
  {
    var i: nat :| i <= |s[k..]| && OccursAt(s[k..], pat, i);
    assert s[k + i..k + i + |pat|] == s[k..][i..i + |pat|];
    ContainsAt(s, pat, k + i);
  }

  /** No occurrence of the pattern is left after `.replace(/pat/g, c)`
      with a character `c` the pattern does not contain. */
  lemma {:induction false} NoPatternLeft(s: string, pat: string, c: char)
    requires |pat| > 0 && c !in pat
    ensures !Contains(ReplaceAll(s, pat, [c]), pat)
    decreases |s|
  {
    var r := ReplaceAll(s, pat, [c]);
    if |s| < |pat| {
      assert r == s;
    } else if StartsWith(s, pat) {
      NoPatternLeft(s[|pat|..], pat, c);
      assert r == [c] + ReplaceAll(s[|pat|..], pat, [c]);
      assert r[1..] == ReplaceAll(s[|pat|..], pat, [c]);
      HeadNotStart(r, pat);
      ContainsSplit(r, pat);
    } else {
      NoPatternLeft(s[1..], pat, c);
      ReplaceAllNotStart(s, pat, [c]);
      assert r[1..] == ReplaceAll(s[1..], pat, [c]);
      ReplacedPrefix(s, pat, [c], pat);
      ContainsSplit(r, pat);
    }
  }

  /** An occurrence of a pattern puts its first character in the string. */
  lemma OccursHead(s: string, pat: string, i: nat)
    requires pat != []
    ensures OccursAt(s, pat, i) ==> pat[0] in s
  {
    if OccursAt(s, pat, i) {
      assert s[i..i + |pat|][0] == s[i];
    }
  }

  /** A string without `:` has no placeholder to replace. */
  lemma ColonFree(s: string, pat: string, rep: string)
    requires |pat| > 0 && pat[0] == ':' && ':' !in s
    ensures ReplaceAll(s, pat, rep) == s
  {
    forall i: nat | i <= |s|
      ensures !OccursAt(s, pat, i)
    {
      OccursHead(s, pat, i);
    }
    ReplaceAllAbsent(s, pat, rep);
  }

  /** `.replace(/:userId/g, '2')` does not bring an `:id` back. */
  lemma {:induction false} NoIdAfterSecond(s: string)
    requires !Contains(s, ":id")
    ensures !Contains(ReplaceAll(s, ":userId", "2"), ":id")
    decreases |s|
  {
    var r := ReplaceAll(s, ":userId", "2");
    if |s| < 7 {
      assert r == s;
    } else if StartsWith(s, ":userId") {
      if Contains(s[7..], ":id") {
        DropContains(s, 7, ":id");
      }
      NoIdAfterSecond(s[7..]);
      assert r == "2" + ReplaceAll(s[7..], ":userId", "2");
      assert r[1..] == ReplaceAll(s[7..], ":userId", "2");
      HeadNotStart(r, ":id");
      ContainsSplit(r, ":id");
    } else {
      TailContains(s, ":id");
      StartsContains(s, ":id");
      NoIdAfterSecond(s[1..]);
      ReplaceAllNotStart(s, ":userId", "2");
      assert r[1..] == ReplaceAll(s[1..], ":userId", "2");
      ReplacedPrefix(s, ":userId", "2", ":id");
      ContainsSplit(r, ":id");
    }
  }

  /** The root path adds nothing to the base URL; any other path is appended
      with no `:id` or `:userId` placeholder left in it, and verbatim when it
      holds no `:` at all. */
  lemma UrlRules(file: string, path: string)
    ensures var base := "http://localhost:3000/api/" + Lower(BaseName(file));
      && (path == "/" ==> ExampleUrl(file, path) == base)
      && (path != "/" ==> exists rest :: ExampleUrl(file, path) == base + rest
                                         && !Contains(rest, ":id") && !Contains(rest, ":userId"))
      && (path != "/" && ':' !in path ==> ExampleUrl(file, path) == base + path)
  {
    if path != "/" {
      var once := ReplaceAll(path, ":id", "1");
      NoPatternLeft(path, ":id", '1');
      NoIdAfterSecond(once);
      NoPatternLeft(once, ":userId", '2');
      if ':' !in path {
        ColonFree(path, ":id", "1");
        ColonFree(path, ":userId", "2");
      }
    }
  }

  // ---------------------------------------------------------------------
  // The document

  /** The endpoints of a route file's lines, in line order. */
  function Endpoints(lines: seq<string>): seq<Endpoint>
  {
    if lines == [] then []
    else
      var last := ParseLine(lines[|lines| - 1]);
      Endpoints(lines[..|lines| - 1]) + (if last.Some? then [last.value] else [])
  }

  /** Endpoints keep the order of their lines: those of a file are those of
      its first lines followed by those of the rest. */
  lemma {:induction false} EndpointsAppend(a: seq<string>, b: seq<string>)
    ensures Endpoints(a + b) == Endpoints(a) + Endpoints(b)
    decreases |b|
  {
    if b == [] {
      assert a + b == a;
    } else {
      var b' := b[..|b| - 1];
      assert (a + b)[..|a + b| - 1] == a + b';
      EndpointsAppend(a, b');
    }
  }

  /** A single line gives its endpoint when it declares a route, and nothing otherwise. */
  lemma EndpointsOfLine(line: string)
    ensures Endpoints([line]) == if ParseLine(line).Some? then [ParseLine(line).value] else []
  {
    assert [line][..0] == [];
  }

  /** The section of one endpoint. */
  function EndpointSection(file: string, e: Endpoint, stringify: seq<Field> -> string): string
  {
    "### " + MethodName(e.verb) + " `/api/" + BaseName(file) + e.path + "`\n\n"
    + "- **Description**: Endpoint pour " + Description(file, e) + "\n"
    + "- **Accès**: " + Access(e) + "\n"
    + "- **Paramètres**: " + ParamsText(file, e) + "\n"
    + "- **Exemple de test**:\n```\n" + ExampleText(file, e, stringify) + "\n```\n\n"
  }

  /** `head` followed by the sections of `es`, in order. */
  function WithEndpoints(head: string, file: string, es: seq<Endpoint>, stringify: seq<Field> -> string): string
    decreases |es|
  {
    if es == [] then head
    else WithEndpoints(head + EndpointSection(file, es[0], stringify), file, es[1..], stringify)
  }

  datatype RouteFile = RouteFile(file: string, name: string)

  /** `routeFiles` */
  const RouteFiles := [
    RouteFile("userRoutes.js", "Utilisateurs"), RouteFile("placeRoutes.js", "Lieux"),
    RouteFile("eventRoutes.js", "Événements"), RouteFile("reservationRoutes.js", "Réservations"),
    RouteFile("reviewRoutes.js", "Avis"), RouteFile("promotionRoutes.js", "Promotions"),
    RouteFile("messagerieRoutes.js", "Messagerie"), RouteFile("clerkRoutes.js", "Intégration Clerk")]

  /** What the `catch` appends for a route file that cannot be read. */
  function ErrorSection(file: string, message: string): string
  {
    "### Erreur lors de l'analyse de " + file + ": " + message + "\n\n"
  }

  /** The contribution of one route file; `read` stands for `fs.readFileSync`. */
  function Section(r: RouteFile, read: string -> Result<string>, stringify: seq<Field> -> string): string
  {
    match read(r.file)
    case Err(m) => ErrorSection(r.file, m)
    case Ok(content) =>
      WithEndpoints("## API " + r.name + "\n\n", r.file, Endpoints(Split(content, '\n')), stringify) + "---\n\n"
  }

  /** `head` followed by the sections of the route files `rs`, in order. */
  function WithSections(head: string, rs: seq<RouteFile>, read: string -> Result<string>,
                        stringify: seq<Field> -> string): string
    decreases |rs|
  {
    if rs == [] then head
    else WithSections(head + Section(rs[0], read, stringify), rs[1..], read, stringify)
  }

  /** The heading; `date` is `new Date().toLocaleDateString('fr-FR')`. */
  function Header(date: string): string
  {
    "# Documentation de l'API JendoubaLife\n\n" + "Date de génération: " + date + "\n\n"
  }

  /** The fixed closing section with the register-and-login example. */
  const TestsSection :=
    "## Tests de l'API\n\n"
    + "Voici quelques exemples de tests à réaliser pour valider le bon fonctionnement de l'API:\n\n"
    + "### Test de création d'un compte et connexion\n\n"
    + "```javascript\n"
    + "// 1. Créer un nouveau compte utilisateur\n"
    + "fetch('http://localhost:3000/api/users/register', {\n"
    + "  method: 'POST',\n"
    + "  headers: { 'Content-Type': 'application/json' },\n"
    + "  body: JSON.stringify({\n"
    + "    nom: 'Dupont',\n"
    + "    prenom: 'Jean',\n"
    + "    email: 'jean.dupont@example.com',\n"
    + "    password: 'motdepasse123'\n"
    + "  })\n"
    + "})\n"
    + ".then(response => response.json())\n"
    + ".then(data => console.log('Utilisateur créé:', data))\n"
    + ".catch(error => console.error('Erreur:', error));\n"
    + "\n"
    + "// 2. Se connecter avec le compte créé\n"
    + "fetch('http://localhost:3000/api/users/login', {\n"
    + "  method: 'POST',\n"
    + "  headers: { 'Content-Type': 'application/json' },\n"
    + "  body: JSON.stringify({\n"
    + "    email: 'jean.dupont@example.com',\n"
    + "    password: 'motdepasse123'\n"
    + "  })\n"
    + "})\n"
    + ".then(response => response.json())\n"
    + ".then(data => console.log('Connexion réussie:', data))\n"
    + ".catch(error => console.error('Erreur:', error));\n"
    + "\n"
    + "```\n\n"

  /** The document `generateApiDoc` writes. */
  function Doc(rs: seq<RouteFile>, read: string -> Result<string>, date: string, stringify: seq<Field> -> string): string
  {
    WithSections(Header(date), rs, read, stringify) + TestsSection
  }

  /** Each route file contributes its own section, in the order of the list. */
  lemma {:induction false} SectionsAppend(head: string, a: seq<RouteFile>, b: seq<RouteFile>,
                                          read: string -> Result<string>, stringify: seq<Field> -> string)
    ensures WithSections(head, a + b, read, stringify)
         == WithSections(WithSections(head, a, read, stringify), b, read, stringify)
    decreases |a|
  {
    if a == [] {
      assert a + b == b;
    } else {
      assert (a + b)[1..] == a[1..] + b;
      SectionsAppend(head + Section(a[0], read, stringify), a[1..], b, read, stringify);
    }
  }

  /** A route file that cannot be read contributes only its error section,
      and the files before and after it are documented as usual. */
  lemma FailingFileIsolated(rs: seq<RouteFile>, i: nat, read: string -> Result<string>, h: string,
                            stringify: seq<Field> -> string)
    requires i < |rs| && read(rs[i].file).Err?
    ensures WithSections(h, rs, read, stringify) ==
      WithSections(WithSections(h, rs[..i], read, stringify) + ErrorSection(rs[i].file, read(rs[i].file).msg),
                   rs[i + 1..], read, stringify)
  {
    var pre := WithSections(h, rs[..i], read, stringify);
    assert rs[..i] + rs[i..] == rs;
    SectionsAppend(h, rs[..i], rs[i..], read, stringify);
    FailedSection(rs[i], read, stringify);
    assert rs[i..][1..] == rs[i + 1..];
  }

  /** An unreadable route file's section is its error section. */
  lemma FailedSection(r: RouteFile, read: string -> Result<string>, stringify: seq<Field> -> string)
    requires read(r.file).Err?
    ensures Section(r, read, stringify) == ErrorSection(r.file, read(r.file).msg)
  {
  }

  /** The `forEach` over a route file's lines: the endpoints in line order. */
  method CollectEndpoints(lines: seq<string>) returns (endpoints: seq<Endpoint>)
    ensures endpoints == Endpoints(lines)
  {
    endpoints := [];
    var i := 0;
    while i < |lines|
      invariant 0 <= i <= |lines|
      invariant endpoints == Endpoints(lines[..i])
    {
      var found := ParseLine(lines[i]);
      if found.Some? {
        endpoints := endpoints + [found.value];
      }
      assert lines[..i + 1][..i] == lines[..i];
      i := i + 1;
    }
    assert lines[..i] == lines;
  }

  /** The text written for one endpoint, its example from `getTestExample`. */
  method WriteEndpoint(file: string, e: Endpoint, stringify: seq<Field> -> string) returns (text: string)
    ensures text == EndpointSection(file, e, stringify)
  {
    var example := TestExample(file, e, stringify);
    text := "### " + MethodName(e.verb) + " `/api/" + BaseName(file) + e.path + "`\n\n"
      + "- **Description**: Endpoint pour " + Description(file, e) + "\n"
      + "- **Accès**: " + Access(e) + "\n"
      + "- **Paramètres**: " + ParamsText(file, e) + "\n"
      + "- **Exemple de test**:\n```\n" + example + "\n```\n\n";
  }

  /** The `forEach` over the endpoints, appending each one's text to `head`. */
  method WriteEndpoints(head: string, file: string, endpoints: seq<Endpoint>, stringify: seq<Field> -> string)
    returns (text: string)
    ensures text == WithEndpoints(head, file, endpoints, stringify)
  {
    text := head;
    var j := 0;
    while j < |endpoints|
      invariant 0 <= j <= |endpoints|
      invariant WithEndpoints(text, file, endpoints[j..], stringify) == WithEndpoints(head, file, endpoints, stringify)
    {
      var one := WriteEndpoint(file, endpoints[j], stringify);
      text := text + one;
      assert endpoints[j..][1..] == endpoints[j + 1..];
      j := j + 1;
    }
  }

  /** One pass of the loop over the route files: the file's section, or the
      error section when it cannot be read. */
  method WriteRoute(route: RouteFile, read: string -> Result<string>, stringify: seq<Field> -> string)
    returns (section: string)
    ensures section == Section(route, read, stringify)
  {
    match read(route.file) {
      case Err(m) =>
        section := "### Erreur lors de l'analyse de " + route.file + ": " + m + "\n\n";
      case Ok(content) =>
        var endpoints := CollectEndpoints(Split(content, '\n'));
        section := WriteEndpoints("## API " + route.name + "\n\n", route.file, endpoints, stringify);
        section := section + "---\n\n";
    }
  }

  /** `generateApiDoc` without the file system. */
  method GenerateApiDoc(rs: seq<RouteFile>, read: string -> Result<string>, date: string, stringify: seq<Field> -> string)
    returns (doc: string)
    ensures doc == Doc(rs, read, date, stringify)
  {
    doc := "# Documentation de l'API JendoubaLife\n\n";
    doc := doc + "Date de génération: " + date + "\n\n";
    var k := 0;
    while k < |rs|
      invariant 0 <= k <= |rs|
      invariant WithSections(doc, rs[k..], read, stringify) == WithSections(Header(date), rs, read, stringify)
    {
      var section := WriteRoute(rs[k], read, stringify);
      doc := doc + section;
      assert rs[k..][1..] == rs[k + 1..];
      k := k + 1;
    }
    doc := doc + TestsSection;
  }
}
