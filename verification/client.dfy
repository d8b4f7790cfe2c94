/**
 * The request-construction engine of the generic Python API client:
 * attribute chaining accumulates URL path segments, and building a request
 * resolves the HTTP method from the last segment, splices identifier
 * keyword arguments into the path, pulls out the request body and
 * assembles the URL with its trailing slash.
 */
module PythonClient {
  import opened Wrappers
  import opened PyValues
  import opened Builtins

  /** Trailing segment names that choose an HTTP method and are removed from the path. */
  const VERBS: map<string, string> :=
    map["create" := "POST", "read" := "GET", "update" := "PUT", "delete" := "DELETE"]

  /**
   * The module's table of identifiers worth splicing into the URL, in dict
   * order. No part of the client reads it: a client splices only the
   * identifiers its caller passes in, and the default is none.
   */
  const IDENTIFIERS: seq<(string, string)> :=
    [("console_id", "consoles"), ("domain_name", "webapps"), ("static_id", "static_files")]

  /** The verb table: four names, each choosing a different HTTP method. */
  lemma VerbTable()
    ensures VERBS.Keys == {"create", "read", "update", "delete"}
    ensures VERBS.Values == {"POST", "GET", "PUT", "DELETE"}
    ensures forall a, b :: a in VERBS && b in VERBS && VERBS[a] == VERBS[b] ==> a == b
  {
  }

  /**
   * A client value. Attribute access builds a new one; no field is ever
   * reassigned, so a request is always built from a copy of the path.
   * `identifiers` holds the (keyword name, anchor segment) pairs of the
   * identifiers dict in its iteration order.
   */
  datatype Client = Client(
    apiKey: string,
    path: seq<string>,
    user: string,
    additionalVerbs: map<string, string>,
    identifiers: seq<(string, string)>)

  /** Why constructing a root client fails: `os.environ["API_TOKEN"]` raises KeyError. */
  datatype InitError = MissingApiToken

  /** Why building a request fails: `path[-1]` raises IndexError, `path.index(anchor)` ValueError. */
  datatype BuildError = EmptyPath | AnchorMissing(anchor: string)

  /** The (url, method, data, params) tuple handed to the HTTP layer. */
  datatype Request = Request(url: string, httpMethod: string, data: Value, params: map<string, Value>)

  /** The method a path resolves to, and the path left once a canonical verb is popped. */
  datatype Resolved = Resolved(httpMethod: string, path: seq<string>)

  /** The method, the path and the keyword arguments once the identifiers have been spliced in. */
  datatype Prepared = Prepared(httpMethod: string, path: seq<string>, kwargs: map<string, Value>)

  /** The keys of a dict are distinct; identifier sequences taken from a dict satisfy this. */
  predicate UniqueKeys(ids: seq<(string, string)>)
  {
    forall i, j :: 0 <= i < j < |ids| ==> ids[i].0 != ids[j].0
  }

  function Keys(ids: seq<(string, string)>): (ks: set<string>)
    ensures forall i :: 0 <= i < |ids| ==> ids[i].0 in ks
  {
    if ids == [] then {} else {ids[0].0} + Keys(ids[1..])
  }

  lemma {:induction false} KeysHaveIndex(ids: seq<(string, string)>, key: string)
    requires key in Keys(ids)
    ensures exists i :: 0 <= i < |ids| && ids[i].0 == key
  {
    if ids[0].0 != key {
      KeysHaveIndex(ids[1..], key);
      var i :| 0 <= i < |ids[1..]| && ids[1..][i].0 == key;
      assert ids[i + 1].0 == key;
    }
  }

  lemma HeadKeyNotInTail(ids: seq<(string, string)>)
    requires ids != [] && UniqueKeys(ids)
    ensures ids[0].0 !in Keys(ids[1..])
  {
    if ids[0].0 in Keys(ids[1..]) {
      KeysHaveIndex(ids[1..], ids[0].0);
    }
  }

  /**
   * `PythonClient(api_key, path, user, additional_verbs, identifiers)`: a
   * falsy api key or user is replaced by the process defaults, given here
   * as parameters; with no api key and no API_TOKEN in the environment the
   * constructor raises.
   */
  function NewClient(
    apiKey: string, path: seq<string>, user: string,
    additionalVerbs: map<string, string>, identifiers: seq<(string, string)>,
    environToken: Option<string>, loginName: string): (r: Result<Client, InitError>)
    ensures r.Success? <==> apiKey != "" || environToken.Some?
    ensures r.Success? && apiKey == "" ==> environToken.Some? && r.value.apiKey == environToken.value
    ensures r.Success? ==> apiKey != "" ==> r.value.apiKey == apiKey
    ensures r.Success? ==> user != "" ==> r.value.user == user
    ensures r.Success? ==> user == "" ==> r.value.user == loginName
    ensures r.Success? ==> r.value.path == path && r.value.additionalVerbs == additionalVerbs
    ensures r.Success? ==> r.value.identifiers == identifiers
  {
    if apiKey == "" && environToken.None? then Failure(MissingApiToken)
    else
      var key := if apiKey != "" then apiKey else environToken.value;
      Success(Client(key, path, if user != "" then user else loginName, additionalVerbs, identifiers))
  }

  /** `client.<attr>`: a new client whose path has one more segment; nothing else changes. */
  function Extend(c: Client, attr: string): (d: Client)
    ensures d.path == c.path + [attr] && d.path[|d.path| - 1] == attr
    ensures d.apiKey == c.apiKey && d.user == c.user
    ensures d.additionalVerbs == c.additionalVerbs && d.identifiers == c.identifiers
  {
    Client(c.apiKey, c.path + [attr], c.user, c.additionalVerbs, c.identifiers)
  }

  /** `client.a.b.c`: a chain of attribute accesses, one Extend per name. */
  function ExtendAll(c: Client, names: seq<string>): (d: Client)
    ensures d.path == c.path + names
    ensures d.apiKey == c.apiKey && d.user == c.user
    ensures d.additionalVerbs == c.additionalVerbs && d.identifiers == c.identifiers
    decreases |names|
  {
    if names == [] then c
    else
      assert c.path + names == (c.path + [names[0]]) + names[1..];
      ExtendAll(Extend(c, names[0]), names[1..])
  }

  /**
   * Attribute access builds the child by calling the constructor again,
   * with the parent's fields. Under the same environment token and login
   * name, that call succeeds and gives exactly Extend.
   */
  lemma ExtendRebuildsClient(
    apiKey: string, path: seq<string>, user: string,
    additionalVerbs: map<string, string>, identifiers: seq<(string, string)>,
    environToken: Option<string>, loginName: string, c: Client, attr: string)
    requires NewClient(apiKey, path, user, additionalVerbs, identifiers, environToken, loginName) == Success(c)
    ensures NewClient(c.apiKey, c.path + [attr], c.user, c.additionalVerbs, c.identifiers, environToken, loginName)
      == Success(Extend(c, attr))
  {
  }

  /** Splitting a chain in two gives the same client as taking it in one go. */
  lemma {:induction false} ExtendAllConcat(c: Client, a: seq<string>, b: seq<string>)
    ensures ExtendAll(ExtendAll(c, a), b) == ExtendAll(c, a + b)
  {
    // Both sides are clients with the same fields, by the contract of ExtendAll.
  }

  /**
   * Method resolution on the last segment: a canonical verb is popped and
   * mapped through VERBS (it wins over an additional verb of the same
   * name); an additional verb sets the method and stays; otherwise GET.
   */
  function ResolveMethod(path: seq<string>, additionalVerbs: map<string, string>): (r: Resolved)
    requires path != []
    ensures var last := path[|path| - 1];
      && (last in VERBS ==> r.httpMethod == VERBS[last] && r.path + [last] == path)
      && (last !in VERBS && last in additionalVerbs ==> r.httpMethod == additionalVerbs[last] && r.path == path)
      && (last !in VERBS && last !in additionalVerbs ==> r.httpMethod == "GET" && r.path == path)
  {
    var last := path[|path| - 1];
    if last in VERBS then Resolved(VERBS[last], path[..|path| - 1])
    else if last in additionalVerbs then Resolved(additionalVerbs[last], path)
    else Resolved("GET", path)
  }

  /** `kwargs.pop(identifier, None)`. */
  function Lookup(kwargs: map<string, Value>, key: string): (v: Value)
    ensures key in kwargs ==> v == kwargs[key]
    ensures key !in kwargs ==> v == NoneValue
  {
    DictPop(kwargs, key, NoneValue).0
  }

  /**
   * One pass of the identifier loop: the identifier's value is popped and,
   * when truthy, its str() is inserted right after the first occurrence of
   * the anchor in the path as it stands then.
   */
  function SpliceStep(path: seq<string>, identifier: string, anchor: string, kwargs: map<string, Value>)
    : (r: Result<seq<string>, BuildError>)
    ensures r.Failure? <==> Truthy(Lookup(kwargs, identifier)) && anchor !in path
    ensures r.Failure? ==> r.error == AnchorMissing(anchor)
    ensures r.Success? && !Truthy(Lookup(kwargs, identifier)) ==> r.value == path
    ensures r.Success? && Truthy(Lookup(kwargs, identifier)) ==>
      var k := FirstIndex(path, anchor);
      && |r.value| == |path| + 1
      && r.value[..k + 1] == path[..k + 1]
      && r.value[k] == anchor
      && r.value[k + 1] == Str(Lookup(kwargs, identifier))
      && r.value[k + 2..] == path[k + 1..]
  {
    var value := Lookup(kwargs, identifier);
    if !Truthy(value) then Success(path)
    else if anchor !in path then Failure(AnchorMissing(anchor))
    else Success(InsertAt(path, FirstIndex(path, anchor) + 1, Str(value)))
  }

  /** The identifier loop over the identifiers in dict order. */
  function SpliceIdentifiers(path: seq<string>, ids: seq<(string, string)>, kwargs: map<string, Value>)
    : (r: Result<(seq<string>, map<string, Value>), BuildError>)
    ensures r.Failure? ==> r.error.AnchorMissing?
    ensures r.Success? ==> r.value.1 == kwargs - Keys(ids)
    ensures r.Success? ==> |r.value.0| >= |path|
    decreases |ids|
  {
    if ids == [] then Success((path, kwargs))
    else
      var rest := DictPop(kwargs, ids[0].0, NoneValue).1;
      assert kwargs - Keys(ids) == rest - Keys(ids[1..]);
      match SpliceStep(path, ids[0].0, ids[0].1, kwargs)
      case Failure(e) => Failure(e)
      case Success(next) => SpliceIdentifiers(next, ids[1..], rest)
  }

  /** Everything construct_request does before assembling the URL. */
  function PrepareRequest(c: Client, kwargs: map<string, Value>): Result<Prepared, BuildError>
  {
    if c.path == [] then Failure(EmptyPath)
    else
      var resolved := ResolveMethod(c.path, c.additionalVerbs);
      match SpliceIdentifiers(resolved.path, c.identifiers, kwargs)
      case Failure(e) => Failure(e)
      case Success((path, rest)) => Success(Prepared(resolved.httpMethod, path, rest))
  }

  /** The URL: the endpoint base, the segments joined by '/', and a trailing '/'. */
  function Url(base: string, path: seq<string>): string
  {
    base + Join(path, "/") + "/"
  }

  /** construct_request(**kwargs) for a client whose endpoint base is `base`. */
  function BuildRequest(c: Client, base: string, kwargs: map<string, Value>): Result<Request, BuildError>
  {
    match PrepareRequest(c, kwargs)
    case Failure(e) => Failure(e)
    case Success(p) =>
      var (data, params) := DictPop(p.kwargs, "data", NoneValue);
      Success(Request(Url(base, p.path), p.httpMethod, data, params))
  }

  /**
   * construct_request as the client runs it: a local copy of the path and
   * of the keyword arguments, changed step by step.
   */
  method ConstructRequest(c: Client, base: string, kwargs: map<string, Value>)
    returns (r: Result<Request, BuildError>)
    ensures r == BuildRequest(c, base, kwargs)
  {
    var path := c.path;
    if |path| == 0 {
      return Failure(EmptyPath);
    }
    var httpMethod: string;
    var last := path[|path| - 1];
    if last in VERBS {
      path := path[..|path| - 1];
      httpMethod := VERBS[last];
    } else if last in c.additionalVerbs {
      httpMethod := c.additionalVerbs[last];
    } else {
      httpMethod := "GET";
    }
    ghost var resolved := path;
    var kw := kwargs;
    var i := 0;
    while i < |c.identifiers|
      invariant 0 <= i <= |c.identifiers|
      invariant SpliceIdentifiers(path, c.identifiers[i..], kw) == SpliceIdentifiers(resolved, c.identifiers, kwargs)
    {
      assert c.identifiers[i..][1..] == c.identifiers[i + 1..];
      var (identifier, name) := c.identifiers[i];
      var value := if identifier in kw then kw[identifier] else NoneValue;
      kw := kw - {identifier};
      if Truthy(value) {
        if name !in path {
          return Failure(AnchorMissing(name));
        }
        path := InsertAt(path, FirstIndex(path, name) + 1, Str(value));
      }
      i := i + 1;
    }
    var data := if "data" in kw then kw["data"] else NoneValue;
    kw := kw - {"data"};
    var url := base + Join(path, "/") + "/";
    r := Success(Request(url, httpMethod, data, kw));
  }

  // ---------------------------------------------------------------------
  // Properties of request construction
  // ---------------------------------------------------------------------

  /** The strings a splice inserts, in identifier order: str() of every truthy identifier value. */
  function InsertedSegments(ids: seq<(string, string)>, kwargs: map<string, Value>): seq<string>
    decreases |ids|
  {
    if ids == [] then []
    else
      var value := Lookup(kwargs, ids[0].0);
      (if Truthy(value) then [Str(value)] else []) + InsertedSegments(ids[1..], kwargs)
  }

  /** No identifier has a truthy value among the keyword arguments. */
  predicate NoTruthyIdentifier(ids: seq<(string, string)>, kwargs: map<string, Value>)
  {
    forall i :: 0 <= i < |ids| ==> !Truthy(Lookup(kwargs, ids[i].0))
  }

  /** Every identifier with a truthy value has its anchor in the path. */
  predicate AnchorsPresent(path: seq<string>, ids: seq<(string, string)>, kwargs: map<string, Value>)
  {
    forall i :: 0 <= i < |ids| && Truthy(Lookup(kwargs, ids[i].0)) ==> ids[i].1 in path
  }

  /** Popping a key the identifiers do not mention leaves the inserted strings alone. */
  lemma {:induction false} InsertedIgnoresOtherKey(ids: seq<(string, string)>, kwargs: map<string, Value>, key: string)
    requires key !in Keys(ids)
    ensures InsertedSegments(ids, kwargs - {key}) == InsertedSegments(ids, kwargs)
  {
    if ids != [] {
      InsertedIgnoresOtherKey(ids[1..], kwargs, key);
    }
  }

  /**
   * With distinct identifier keys, splicing adds exactly the strings of the
   * truthy identifier values: one segment per truthy value, nothing else.
   */
  lemma {:induction false} SpliceAddsInsertedSegments(path: seq<string>, ids: seq<(string, string)>, kwargs: map<string, Value>)
    requires UniqueKeys(ids)
    requires SpliceIdentifiers(path, ids, kwargs).Success?
    ensures var p := SpliceIdentifiers(path, ids, kwargs).value.0;
      && multiset(p) == multiset(path) + multiset(InsertedSegments(ids, kwargs))
      && |p| == |path| + |InsertedSegments(ids, kwargs)|
    decreases |ids|
  {
    if ids != [] {
      var key := ids[0].0;
      var value := Lookup(kwargs, key);
      var rest := kwargs - {key};
      var head := if Truthy(value) then [Str(value)] else [];
      assert UniqueKeys(ids[1..]);
      HeadKeyNotInTail(ids);
      InsertedIgnoresOtherKey(ids[1..], kwargs, key);
      assert InsertedSegments(ids, kwargs) == head + InsertedSegments(ids[1..], rest);
      var next := SpliceStep(path, key, ids[0].1, kwargs).value;
      assert multiset(next) == multiset(path) + multiset(head) && |next| == |path| + |head|;
      SpliceAddsInsertedSegments(next, ids[1..], rest);
    }
  }

  /** A popped value is the original one or None, so popping never makes a value truthy. */
  lemma LookupAfterRemoval(kwargs: map<string, Value>, removed: string, key: string)
    ensures Truthy(Lookup(kwargs - {removed}, key)) ==> Truthy(Lookup(kwargs, key))
  {
  }

  /** Falsy or absent identifier values add nothing to the path. */
  lemma {:induction false} SpliceWithoutTruthyValues(path: seq<string>, ids: seq<(string, string)>, kwargs: map<string, Value>)
    requires NoTruthyIdentifier(ids, kwargs)
    ensures SpliceIdentifiers(path, ids, kwargs) == Success((path, kwargs - Keys(ids)))
  {
    if ids != [] {
      var rest := kwargs - {ids[0].0};
      forall i | 0 <= i < |ids[1..]|
        ensures !Truthy(Lookup(rest, ids[1..][i].0))
      {
        assert ids[1..][i] == ids[i + 1];
        LookupAfterRemoval(kwargs, ids[0].0, ids[i + 1].0);
      }
      SpliceWithoutTruthyValues(path, ids[1..], rest);
    }
  }

  /** Splicing only inserts, so every segment already present stays present. */
  lemma InsertKeepsMembers(path: seq<string>, k: nat, s: string, x: string)
    requires k <= |path| && x in path
    ensures x in InsertAt(path, k, s)
  {
    assert x in multiset(InsertAt(path, k, s));
  }

  /** When every truthy identifier's anchor is in the path, splicing cannot fail. */
  lemma {:induction false} SpliceSucceedsWhenAnchorsPresent(path: seq<string>, ids: seq<(string, string)>, kwargs: map<string, Value>)
    requires AnchorsPresent(path, ids, kwargs)
    ensures SpliceIdentifiers(path, ids, kwargs).Success?
    decreases |ids|
  {
    if ids != [] {
      var key := ids[0].0;
      var value := Lookup(kwargs, key);
      var rest := kwargs - {key};
      var next := if Truthy(value) then InsertAt(path, FirstIndex(path, ids[0].1) + 1, Str(value)) else path;
      forall i | 0 <= i < |ids[1..]| && Truthy(Lookup(rest, ids[1..][i].0))
        ensures ids[1..][i].1 in next
      {
        assert ids[1..][i] == ids[i + 1];
        LookupAfterRemoval(kwargs, key, ids[i + 1].0);
        if Truthy(value) {
          InsertKeepsMembers(path, FirstIndex(path, ids[0].1) + 1, Str(value), ids[i + 1].1);
        }
      }
      SpliceSucceedsWhenAnchorsPresent(next, ids[1..], rest);
    }
  }

  /** A failed splice names an anchor that a truthy identifier needs and the path lacks. */
  lemma {:induction false} SpliceFailureNamesMissingAnchor(path: seq<string>, ids: seq<(string, string)>, kwargs: map<string, Value>)
    requires SpliceIdentifiers(path, ids, kwargs).Failure?
    ensures var a := SpliceIdentifiers(path, ids, kwargs).error.anchor;
      a !in path && exists i :: 0 <= i < |ids| && ids[i].1 == a && Truthy(Lookup(kwargs, ids[i].0))
    decreases |ids|
  {
    var key := ids[0].0;
    var value := Lookup(kwargs, key);
    var rest := kwargs - {key};
    var a := SpliceIdentifiers(path, ids, kwargs).error.anchor;
    if Truthy(value) && ids[0].1 !in path {
      assert ids[0].1 == a;
    } else {
      var next := if Truthy(value) then InsertAt(path, FirstIndex(path, ids[0].1) + 1, Str(value)) else path;
      SpliceFailureNamesMissingAnchor(next, ids[1..], rest);
      var i :| 0 <= i < |ids[1..]| && ids[1..][i].1 == a && Truthy(Lookup(rest, ids[1..][i].0));
      assert ids[1..][i] == ids[i + 1];
      LookupAfterRemoval(kwargs, key, ids[i + 1].0);
      assert a in path ==> a in multiset(next);
    }
  }

  /** `a` occurs in `b` in the same order, possibly with other items in between. */
  predicate IsSubsequence(a: seq<string>, b: seq<string>)
    decreases |b|
  {
    if a == [] then true
    else if b == [] then false
    else (a[0] == b[0] && IsSubsequence(a[1..], b[1..])) || IsSubsequence(a, b[1..])
  }

  lemma {:induction false} SubsequenceOfItself(a: seq<string>)
    ensures IsSubsequence(a, a)
  {
    if a != [] {
      SubsequenceOfItself(a[1..]);
    }
  }

  lemma {:induction false} SubsequenceAfterInsert(a: seq<string>, b: seq<string>, k: nat, x: string)
    requires k <= |b| && IsSubsequence(a, b)
    ensures IsSubsequence(a, InsertAt(b, k, x))
    decreases |b|
  {
    var r := InsertAt(b, k, x);
    if a != [] {
      if k == 0 {
        assert r[1..] == b;
      } else {
        assert r[0] == b[0];
        assert r[1..] == InsertAt(b[1..], k - 1, x);
        if a[0] == b[0] && IsSubsequence(a[1..], b[1..]) {
          SubsequenceAfterInsert(a[1..], b[1..], k - 1, x);
        } else {
          SubsequenceAfterInsert(a, b[1..], k - 1, x);
        }
      }
    }
  }

  /** Splicing keeps the segments it started from in their order. */
  lemma {:induction false} SpliceKeepsOrder(a: seq<string>, path: seq<string>, ids: seq<(string, string)>, kwargs: map<string, Value>)
    requires IsSubsequence(a, path)
    requires SpliceIdentifiers(path, ids, kwargs).Success?
    ensures IsSubsequence(a, SpliceIdentifiers(path, ids, kwargs).value.0)
    decreases |ids|
  {
    if ids != [] {
      var value := Lookup(kwargs, ids[0].0);
      var rest := kwargs - {ids[0].0};
      if Truthy(value) {
        var k := FirstIndex(path, ids[0].1) + 1;
        SubsequenceAfterInsert(a, path, k, Str(value));
        SpliceKeepsOrder(a, InsertAt(path, k, Str(value)), ids[1..], rest);
      } else {
        SpliceKeepsOrder(a, path, ids[1..], rest);
      }
    }
  }

  /** The path the method resolution leaves, before any identifier is spliced in. */
  function ResolvedPath(c: Client): seq<string>
    requires c.path != []
  {
    ResolveMethod(c.path, c.additionalVerbs).path
  }

  /**
   * The stages before the URL: IndexError exactly on an empty path, else
   * only ValueError; on success the method is the one the last segment
   * chooses, at most the verb segment is gone, and the kwargs have lost
   * exactly the identifier keys.
   */
  lemma PrepareRequestOutcome(c: Client, kwargs: map<string, Value>)
    ensures var r := PrepareRequest(c, kwargs);
      && (r == Failure(EmptyPath) <==> c.path == [])
      && (r.Failure? && c.path != [] ==> r.error.AnchorMissing?)
      && (r.Success? ==> r.value.kwargs == kwargs - Keys(c.identifiers))
      && (r.Success? ==> |r.value.path| + 1 >= |c.path|)
      && (r.Success? ==> var last := c.path[|c.path| - 1];
            r.value.httpMethod == if last in VERBS then VERBS[last]
              else if last in c.additionalVerbs then c.additionalVerbs[last] else "GET")
  {
  }

  /**
   * The request tuple: an error only for an empty path or a missing anchor;
   * on success a URL under the base ending in '/', a method from VERBS,
   * the additional verbs or GET, and params that are the kwargs minus the
   * identifier keys and "data".
   */
  lemma BuildRequestOutcome(c: Client, base: string, kwargs: map<string, Value>)
    ensures var r := BuildRequest(c, base, kwargs);
      && (r.Failure? && c.path != [] ==> r.error.AnchorMissing?)
      && (r.Success? ==>
            |r.value.url| > |base| && r.value.url[..|base|] == base && r.value.url[|r.value.url| - 1] == '/')
      && (r.Success? ==> r.value.params == kwargs - Keys(c.identifiers) - {"data"})
      && (r.Success? ==>
            (r.value.httpMethod in VERBS.Values || r.value.httpMethod in c.additionalVerbs.Values
             || r.value.httpMethod == "GET"))
  {
    PrepareRequestOutcome(c, kwargs);
  }

  /** Building fails with IndexError exactly when the client's path is empty. */
  lemma EmptyPathFails(c: Client, base: string, kwargs: map<string, Value>)
    ensures BuildRequest(c, base, kwargs) == Failure(EmptyPath) <==> c.path == []
  {
  }

  /** A canonical verb sets the method and is removed from the URL. */
  lemma CanonicalVerbRequest(c: Client, base: string, kwargs: map<string, Value>)
    requires c.path != [] && c.path[|c.path| - 1] in VERBS
    ensures var r := BuildRequest(c, base, kwargs);
      && (r.Success? ==> r.value.httpMethod == VERBS[c.path[|c.path| - 1]])
      && (r.Success? ==> r.value.httpMethod in {"POST", "GET", "PUT", "DELETE"})
      && (NoTruthyIdentifier(c.identifiers, kwargs) ==>
            r.Success? && r.value.url == Url(base, c.path[..|c.path| - 1]))
  {
    if NoTruthyIdentifier(c.identifiers, kwargs) {
      SpliceWithoutTruthyValues(ResolvedPath(c), c.identifiers, kwargs);
      assert ResolvedPath(c) == c.path[..|c.path| - 1];
    }
  }

  /** An additional verb sets the method and stays in the URL; a canonical verb of the same name wins. */
  lemma AdditionalVerbRequest(c: Client, base: string, kwargs: map<string, Value>)
    requires c.path != [] && c.path[|c.path| - 1] in c.additionalVerbs
    ensures var last := c.path[|c.path| - 1];
      var r := BuildRequest(c, base, kwargs);
      && (r.Success? && last !in VERBS ==> r.value.httpMethod == c.additionalVerbs[last])
      && (r.Success? && last in VERBS ==> r.value.httpMethod == VERBS[last])
      && (NoTruthyIdentifier(c.identifiers, kwargs) && last !in VERBS ==>
            r.Success? && r.value.url == Url(base, c.path))
  {
    if NoTruthyIdentifier(c.identifiers, kwargs) {
      SpliceWithoutTruthyValues(ResolvedPath(c), c.identifiers, kwargs);
    }
  }

  /** A last segment in neither table gives GET, and the path is used as it is. */
  lemma DefaultGetRequest(c: Client, base: string, kwargs: map<string, Value>)
    requires c.path != [] && c.path[|c.path| - 1] !in VERBS && c.path[|c.path| - 1] !in c.additionalVerbs
    ensures var r := BuildRequest(c, base, kwargs);
      && (r.Success? ==> r.value.httpMethod == "GET")
      && (NoTruthyIdentifier(c.identifiers, kwargs) ==> r.Success? && r.value.url == Url(base, c.path))
  {
    if NoTruthyIdentifier(c.identifiers, kwargs) {
      SpliceWithoutTruthyValues(ResolvedPath(c), c.identifiers, kwargs);
    }
  }

  /**
   * The query parameters are the keyword arguments minus every identifier
   * key and minus "data"; the body is the "data" argument, or None when it
   * is absent or was taken as an identifier.
   */
  lemma ParamsAndBody(c: Client, base: string, kwargs: map<string, Value>)
    requires BuildRequest(c, base, kwargs).Success?
    ensures var r := BuildRequest(c, base, kwargs).value;
      && r.params == kwargs - Keys(c.identifiers) - {"data"}
      && "data" !in r.params
      && (forall k :: k in r.params ==> k in kwargs && r.params[k] == kwargs[k])
      && ("data" in kwargs && "data" !in Keys(c.identifiers) ==> r.data == kwargs["data"])
      && ("data" !in kwargs || "data" in Keys(c.identifiers) ==> r.data == NoneValue)
  {
  }

  /**
   * With distinct identifier keys, the request path is the resolved path
   * with one extra segment per truthy identifier value, holding that
   * value's str(); the resolved segments keep their order.
   */
  lemma IdentifierSegments(c: Client, kwargs: map<string, Value>)
    requires UniqueKeys(c.identifiers)
    requires PrepareRequest(c, kwargs).Success?
    ensures c.path != []
    ensures var p := PrepareRequest(c, kwargs).value.path;
      var inserted := InsertedSegments(c.identifiers, kwargs);
      && multiset(p) == multiset(ResolvedPath(c)) + multiset(inserted)
      && |p| == |ResolvedPath(c)| + |inserted|
      && IsSubsequence(ResolvedPath(c), p)
  {
    var resolved := ResolvedPath(c);
    SpliceAddsInsertedSegments(resolved, c.identifiers, kwargs);
    SubsequenceOfItself(resolved);
    SpliceKeepsOrder(resolved, resolved, c.identifiers, kwargs);
  }

  /** No truthy identifier value: the request path is exactly the resolved path. */
  lemma FalsyIdentifiersIgnored(c: Client, kwargs: map<string, Value>)
    requires c.path != [] && NoTruthyIdentifier(c.identifiers, kwargs)
    ensures PrepareRequest(c, kwargs).Success?
    ensures PrepareRequest(c, kwargs).value.path == ResolvedPath(c)
  {
    SpliceWithoutTruthyValues(ResolvedPath(c), c.identifiers, kwargs);
  }

  /**
   * Building succeeds whenever the path is non-empty and every truthy
   * identifier's anchor is a segment of the resolved path; a ValueError
   * names an anchor some truthy identifier needs that the resolved path
   * does not hold.
   */
  lemma AnchorErrors(c: Client, base: string, kwargs: map<string, Value>)
    requires c.path != []
    ensures AnchorsPresent(ResolvedPath(c), c.identifiers, kwargs) ==> BuildRequest(c, base, kwargs).Success?
    ensures BuildRequest(c, base, kwargs).Failure? ==>
      var a := BuildRequest(c, base, kwargs).error.anchor;
      && BuildRequest(c, base, kwargs).error.AnchorMissing?
      && a !in ResolvedPath(c)
      && exists i :: 0 <= i < |c.identifiers| && c.identifiers[i].1 == a && Truthy(Lookup(kwargs, c.identifiers[i].0))
  {
    var resolved := ResolvedPath(c);
    if AnchorsPresent(resolved, c.identifiers, kwargs) {
      SpliceSucceedsWhenAnchorsPresent(resolved, c.identifiers, kwargs);
    }
    if SpliceIdentifiers(resolved, c.identifiers, kwargs).Failure? {
      SpliceFailureNamesMissingAnchor(resolved, c.identifiers, kwargs);
    }
  }

  /**
   * The URL is the base, then the request path joined by '/', then '/';
   * when no segment holds a '/', splitting the part after the base gives
   * back the request path, segments and order alike.
   */
  lemma UrlShape(c: Client, base: string, kwargs: map<string, Value>)
    requires PrepareRequest(c, kwargs).Success?
    ensures var p := PrepareRequest(c, kwargs).value.path;
      var url := BuildRequest(c, base, kwargs).value.url;
      && |url| > |base| && url[..|base|] == base && url[|url| - 1] == '/'
      && (p != [] && (forall i :: 0 <= i < |p| ==> '/' !in p[i]) ==>
            Split(url[|base|..|url| - 1], '/') == p)
      && (p == [] ==> url == base + "/")
  {
    var p := PrepareRequest(c, kwargs).value.path;
    var url := BuildRequest(c, base, kwargs).value.url;
    assert url == base + Join(p, "/") + "/";
    assert url[|base|..|url| - 1] == Join(p, "/");
    if p != [] && (forall i :: 0 <= i < |p| ==> '/' !in p[i]) {
      SplitJoin(p, '/');
    }
  }
}
