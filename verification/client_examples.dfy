/**
 * The request-building cases the client's tests pin down, stated as
 * lemmas about the model, plus two consequences of the code as written:
 * a path holding only a verb builds the bare base URL, and identifiers
 * sharing an anchor land in reverse dict order.
 */
module ClientExamples {
  import opened Wrappers
  import opened PyValues
  import opened Builtins
  import opened PythonClient

  const BASE := "https://www.example.com/user/testuser/"

  /** The root client of the tests: no path, the given verb and identifier tables. */
  function Root(additionalVerbs: map<string, string>, identifiers: seq<(string, string)>): (c: Client)
    ensures c.path == [] && c.additionalVerbs == additionalVerbs && c.identifiers == identifiers
  {
    Client("api_key", [], "testuser", additionalVerbs, identifiers)
  }

  lemma ChainBuildsPath()
    ensures ExtendAll(Root(map[], []), ["a", "b", "c"]).path == ["a", "b", "c"]
  {
  }

  /** A request without identifiers: its parts follow from the general lemmas. */
  lemma PlainRequest(c: Client, kwargs: map<string, Value>)
    requires c.path != [] && c.identifiers == [] && "data" !in kwargs
    ensures BuildRequest(c, BASE, kwargs).Success?
    ensures BuildRequest(c, BASE, kwargs).value.params == kwargs
    ensures BuildRequest(c, BASE, kwargs).value.data == NoneValue
    ensures BuildRequest(c, BASE, kwargs).value.url == Url(BASE, PrepareRequest(c, kwargs).value.path)
  {
    FalsyIdentifiersIgnored(c, kwargs);
    ParamsAndBody(c, BASE, kwargs);
    assert kwargs - Keys(c.identifiers) - {"data"} == kwargs;
  }

  lemma ReadByDefault()
    ensures BuildRequest(Extend(Root(map[], []), "details"), BASE, map[])
      == Success(Request(BASE + "details/", "GET", NoneValue, map[]))
  {
    var c := Extend(Root(map[], []), "details");
    assert c.path == ["details"];
    PlainRequest(c, map[]);
    DefaultGetRequest(c, BASE, map[]);
    assert Join(["details"], "/") == "details";
    var r := BuildRequest(c, BASE, map[]).value;
    assert r.httpMethod == "GET";
    assert r.url == Url(BASE, ["details"]);
    assert Url(BASE, ["details"]) == BASE + "details/";
    assert r.data == NoneValue;
    assert r.params == map[];
  }

  /** `details.create()`, `.read()`, `.update()`, `.delete()`: the verb's method, to base + "details/". */
  lemma CanonicalVerb(verb: string)
    requires verb in VERBS
    ensures BuildRequest(ExtendAll(Root(map[], []), ["details", verb]), BASE, map[])
      == Success(Request(BASE + "details/", VERBS[verb], NoneValue, map[]))
  {
    var c := ExtendAll(Root(map[], []), ["details", verb]);
    assert c.path == ["details", verb];
    PlainRequest(c, map[]);
    CanonicalVerbRequest(c, BASE, map[]);
    assert c.path[..1] == ["details"];
    assert Join(["details"], "/") == "details";
    var r := BuildRequest(c, BASE, map[]).value;
    assert r.httpMethod == VERBS[verb];
    assert r.url == Url(BASE, ["details"]) == BASE + "details/";
  }

  lemma AdditionalVerbKept()
    ensures BuildRequest(ExtendAll(Root(map["reload" := "POST"], []), ["details", "reload"]), BASE, map[])
      == Success(Request(BASE + "details/reload/", "POST", NoneValue, map[]))
  {
    var c := ExtendAll(Root(map["reload" := "POST"], []), ["details", "reload"]);
    assert c.path == ["details", "reload"];
    PlainRequest(c, map[]);
    AdditionalVerbRequest(c, BASE, map[]);
    assert Join(["details", "reload"], "/") == "details/reload";
    var r := BuildRequest(c, BASE, map[]).value;
    assert r.httpMethod == "POST";
    assert r.url == Url(BASE, ["details", "reload"]) == BASE + "details/reload/";
  }

  lemma StrOf123()
    ensures Str(IntValue(123)) == "123"
  {
    assert NatToDecimal(1) == "1";
    assert NatToDecimal(12) == "12";
  }

  /** The identifier loop over a single identifier is one step. */
  lemma SpliceSingle(path: seq<string>, identifier: string, anchor: string, kwargs: map<string, Value>)
    requires SpliceStep(path, identifier, anchor, kwargs).Success?
    ensures SpliceIdentifiers(path, [(identifier, anchor)], kwargs)
      == Success((SpliceStep(path, identifier, anchor, kwargs).value, kwargs - {identifier}))
  {
    assert [(identifier, anchor)][1..] == [];
  }

  /** A successful first step hands the loop the new path and the kwargs without the first key. */
  lemma SpliceFirst(path: seq<string>, ids: seq<(string, string)>, kwargs: map<string, Value>, next: seq<string>)
    requires ids != [] && SpliceStep(path, ids[0].0, ids[0].1, kwargs) == Success(next)
    ensures SpliceIdentifiers(path, ids, kwargs) == SpliceIdentifiers(next, ids[1..], kwargs - {ids[0].0})
  {
  }

  /** A truthy identifier whose anchor is the first segment: its value becomes the second segment. */
  lemma SpliceAtHead(path: seq<string>, identifier: string, kwargs: map<string, Value>)
    requires path != [] && Truthy(Lookup(kwargs, identifier))
    ensures SpliceStep(path, identifier, path[0], kwargs)
      == Success([path[0], Str(Lookup(kwargs, identifier))] + path[1..])
  {
    var v := Str(Lookup(kwargs, identifier));
    var r := SpliceStep(path, identifier, path[0], kwargs);
    assert path[0] in path;
    assert FirstIndex(path, path[0]) == 0;
    assert r.Success? && |r.value| == |path| + 1;
    assert r.value[0] == path[0] && r.value[1] == v && r.value[2..] == path[1..];
    assert r.value == [r.value[0], r.value[1]] + r.value[2..];
  }

  /** PrepareRequest from its two stages. */
  lemma PrepareFromStages(c: Client, kwargs: map<string, Value>, path: seq<string>, rest: map<string, Value>)
    requires c.path != []
    requires SpliceIdentifiers(ResolvedPath(c), c.identifiers, kwargs) == Success((path, rest))
    ensures PrepareRequest(c, kwargs)
      == Success(Prepared(ResolveMethod(c.path, c.additionalVerbs).httpMethod, path, rest))
  {
  }

  /** A one-segment path that names no verb resolves to GET on itself. */
  lemma ResolveDetails()
    ensures ResolveMethod(["details"], map[]) == Resolved("GET", ["details"])
  {
    assert "details" !in VERBS;
  }

  lemma DetailIdSplice()
    ensures SpliceIdentifiers(["details"], [("detail_id", "details")], map["detail_id" := IntValue(123)])
      == Success((["details", "123"], map[]))
  {
    var kwargs := map["detail_id" := IntValue(123)];
    StrOf123();
    SpliceAtHead(["details"], "detail_id", kwargs);
    assert ["details", "123"] + ["details"][1..] == ["details", "123"];
    assert kwargs - {"detail_id"} == map[];
    SpliceSingle(["details"], "detail_id", "details", kwargs);
  }

  lemma IdentifierPrepared()
    ensures PrepareRequest(Extend(Root(map[], [("detail_id", "details")]), "details"),
                           map["detail_id" := IntValue(123)])
      == Success(Prepared("GET", ["details", "123"], map[]))
  {
    var c := Extend(Root(map[], [("detail_id", "details")]), "details");
    assert c.path == ["details"] && c.identifiers == [("detail_id", "details")];
    ResolveDetails();
    DetailIdSplice();
    PrepareFromStages(c, map["detail_id" := IntValue(123)], ["details", "123"], map[]);
  }

  lemma UrlOfDetails123()
    ensures Url(BASE, ["details", "123"]) == BASE + "details/123/"
  {
    assert Join(["details", "123"], "/") == "details/123";
  }

  lemma IdentifierSpliced()
    ensures BuildRequest(Extend(Root(map[], [("detail_id", "details")]), "details"), BASE,
                         map["detail_id" := IntValue(123)])
      == Success(Request(BASE + "details/123/", "GET", NoneValue, map[]))
  {
    IdentifierPrepared();
    UrlOfDetails123();
  }

  lemma FalsyIdentifierPrepared()
    ensures PrepareRequest(Extend(Root(map[], [("detail_id", "details")]), "details"),
                           map["detail_id" := IntValue(0), "page" := IntValue(2)])
      == Success(Prepared("GET", ["details"], map["page" := IntValue(2)]))
  {
    var c := Extend(Root(map[], [("detail_id", "details")]), "details");
    var kwargs := map["detail_id" := IntValue(0), "page" := IntValue(2)];
    assert c.path == ["details"] && c.identifiers == [("detail_id", "details")];
    ResolveDetails();
    assert !Truthy(Lookup(kwargs, "detail_id"));
    SpliceWithoutTruthyValues(["details"], c.identifiers, kwargs);
    assert kwargs - Keys(c.identifiers) == map["page" := IntValue(2)];
    PrepareFromStages(c, kwargs, ["details"], map["page" := IntValue(2)]);
  }

  lemma UrlOfDetails()
    ensures Url(BASE, ["details"]) == BASE + "details/"
  {
    assert Join(["details"], "/") == "details";
  }

  lemma FalsyIdentifierDropped()
    ensures BuildRequest(Extend(Root(map[], [("detail_id", "details")]), "details"), BASE,
                         map["detail_id" := IntValue(0), "page" := IntValue(2)])
      == Success(Request(BASE + "details/", "GET", NoneValue, map["page" := IntValue(2)]))
  {
    FalsyIdentifierPrepared();
    UrlOfDetails();
    assert map["page" := IntValue(2)] - {"data"} == map["page" := IntValue(2)];
  }

  lemma DataBecomesBody()
    ensures var form := DictValue([("domain_name", "www.test.com"), ("python_version", "python27")]);
      BuildRequest(ExtendAll(Root(map[], []), ["details", "create"]), BASE, map["data" := form])
        == Success(Request(BASE + "details/", "POST", form, map[]))
  {
    var form := DictValue([("domain_name", "www.test.com"), ("python_version", "python27")]);
    var c := ExtendAll(Root(map[], []), ["details", "create"]);
    var kwargs := map["data" := form];
    assert c.path == ["details", "create"];
    FalsyIdentifiersIgnored(c, kwargs);
    CanonicalVerbRequest(c, BASE, kwargs);
    ParamsAndBody(c, BASE, kwargs);
    assert kwargs - Keys(c.identifiers) - {"data"} == map[];
    assert c.path[..1] == ["details"];
    assert Join(["details"], "/") == "details";
    var r := BuildRequest(c, BASE, kwargs).value;
    assert r.httpMethod == "POST";
    assert r.url == Url(BASE, ["details"]) == BASE + "details/";
    assert r.data == form;
  }

  /** A path holding only a canonical verb does not fail: the URL is the base plus "/". */
  lemma VerbOnlyPath()
    ensures BuildRequest(Extend(Root(map[], []), "create"), BASE, map[])
      == Success(Request(BASE + "/", "POST", NoneValue, map[]))
  {
    var c := Extend(Root(map[], []), "create");
    assert c.path == ["create"];
    PlainRequest(c, map[]);
    CanonicalVerbRequest(c, BASE, map[]);
    assert c.path[..0] == [];
    var r := BuildRequest(c, BASE, map[]).value;
    assert r.httpMethod == "POST";
    assert r.url == Url(BASE, []) == BASE + "/";
  }

  lemma SharedAnchorFirstStep()
    ensures SpliceStep(["x"], "a", "x", map["a" := StrValue("1"), "b" := StrValue("2")]) == Success(["x", "1"])
  {
    SpliceAtHead(["x"], "a", map["a" := StrValue("1"), "b" := StrValue("2")]);
    assert ["x", "1"] + ["x"][1..] == ["x", "1"];
  }

  lemma SharedAnchorSecondStep()
    ensures SpliceStep(["x", "1"], "b", "x", map["b" := StrValue("2")]) == Success(["x", "2", "1"])
  {
    SpliceAtHead(["x", "1"], "b", map["b" := StrValue("2")]);
    assert ["x", "2"] + ["x", "1"][1..] == ["x", "2", "1"];
  }

  lemma SharedAnchorSplice()
    ensures SpliceIdentifiers(["x"], [("a", "x"), ("b", "x")], map["a" := StrValue("1"), "b" := StrValue("2")])
      == Success((["x", "2", "1"], map[]))
  {
    var kwargs := map["a" := StrValue("1"), "b" := StrValue("2")];
    var rest := map["b" := StrValue("2")];
    assert kwargs - {"a"} == rest;
    assert rest - {"b"} == map[];
    SharedAnchorFirstStep();
    SharedAnchorSecondStep();
    SpliceSingle(["x", "1"], "b", "x", rest);
    assert [("a", "x"), ("b", "x")][1..] == [("b", "x")];
  }

  lemma SharedAnchorPrepared()
    ensures PrepareRequest(Extend(Root(map[], [("a", "x"), ("b", "x")]), "x"),
                           map["a" := StrValue("1"), "b" := StrValue("2")])
      == Success(Prepared("GET", ["x", "2", "1"], map[]))
  {
    var c := Extend(Root(map[], [("a", "x"), ("b", "x")]), "x");
    assert c.path == ["x"] && c.identifiers == [("a", "x"), ("b", "x")];
    assert ResolveMethod(["x"], map[]).path == ["x"] && ResolveMethod(["x"], map[]).httpMethod == "GET";
    SharedAnchorSplice();
  }

  lemma UrlOfX21()
    ensures Url(BASE, ["x", "2", "1"]) == BASE + "x/2/1/"
  {
    assert Join(["x", "2", "1"], "/") == "x/2/1";
  }

  /** Two identifiers with the same anchor: the later one is inserted first in the URL. */
  lemma SharedAnchorReversesOrder()
    ensures BuildRequest(Extend(Root(map[], [("a", "x"), ("b", "x")]), "x"), BASE,
                         map["a" := StrValue("1"), "b" := StrValue("2")])
      == Success(Request(BASE + "x/2/1/", "GET", NoneValue, map[]))
  {
    SharedAnchorPrepared();
    UrlOfX21();
  }

  lemma UrlOfConsoles()
    ensures Url(BASE, ["consoles"]) == BASE + "consoles/"
  {
    assert Join(["consoles"], "/") == "consoles";
  }

  /** With the default (empty) identifiers dict, `console_id` is sent as a query parameter. */
  lemma DefaultClientKeepsConsoleId()
    ensures BuildRequest(Extend(Root(map[], []), "consoles"), BASE, map["console_id" := IntValue(7)])
      == Success(Request(BASE + "consoles/", "GET", NoneValue, map["console_id" := IntValue(7)]))
  {
    var c := Extend(Root(map[], []), "consoles");
    var kwargs := map["console_id" := IntValue(7)];
    assert c.path == ["consoles"];
    PlainRequest(c, kwargs);
    DefaultGetRequest(c, BASE, kwargs);
    UrlOfConsoles();
    var r := BuildRequest(c, BASE, kwargs).value;
    assert r.httpMethod == "GET";
    assert r.url == BASE + "consoles/";
    assert r.data == NoneValue;
    assert r.params == kwargs;
  }

  lemma StrOf7()
    ensures Str(IntValue(7)) == "7"
  {
  }

  lemma ConsoleIdStep()
    ensures SpliceStep(["consoles"], "console_id", "consoles", map["console_id" := IntValue(7)])
      == Success(["consoles", "7"])
  {
    StrOf7();
    SpliceAtHead(["consoles"], "console_id", map["console_id" := IntValue(7)]);
    assert ["consoles", "7"] + ["consoles"][1..] == ["consoles", "7"];
  }

  /** The identifier loop over the module's table: console_id is spliced, the other two are absent. */
  lemma ConsoleIdTableSplice()
    ensures SpliceIdentifiers(["consoles"], IDENTIFIERS, map["console_id" := IntValue(7)])
      == Success((["consoles", "7"], map[]))
  {
    var kwargs := map["console_id" := IntValue(7)];
    var none: map<string, Value> := map[];
    var others := IDENTIFIERS[1..];
    assert IDENTIFIERS[0] == ("console_id", "consoles");
    assert kwargs - {"console_id"} == none;
    ConsoleIdStep();
    SpliceFirst(["consoles"], IDENTIFIERS, kwargs, ["consoles", "7"]);
    assert NoTruthyIdentifier(others, none);
    assert none - Keys(others) == none;
    SpliceWithoutTruthyValues(["consoles", "7"], others, none);
  }

  lemma ConsoleIdTablePrepared()
    ensures PrepareRequest(Extend(Root(map[], IDENTIFIERS), "consoles"), map["console_id" := IntValue(7)])
      == Success(Prepared("GET", ["consoles", "7"], map[]))
  {
    var c := Extend(Root(map[], IDENTIFIERS), "consoles");
    assert c.path == ["consoles"] && c.identifiers == IDENTIFIERS;
    assert "consoles" !in VERBS;
    assert ResolveMethod(["consoles"], map[]) == Resolved("GET", ["consoles"]);
    ConsoleIdTableSplice();
  }

  lemma UrlOfConsoles7()
    ensures Url(BASE, ["consoles", "7"]) == BASE + "consoles/7/"
  {
    assert Join(["consoles", "7"], "/") == "consoles/7";
  }

  /** A client given the module's identifiers table splices `console_id` after "consoles". */
  lemma TableClientSplicesConsoleId()
    ensures BuildRequest(Extend(Root(map[], IDENTIFIERS), "consoles"), BASE, map["console_id" := IntValue(7)])
      == Success(Request(BASE + "consoles/7/", "GET", NoneValue, map[]))
  {
    ConsoleIdTablePrepared();
    UrlOfConsoles7();
  }
}
