/**
 Routing (`Router`): static routes in a dictionary, regular-expression routes in a list with an index by
 pattern, and a lookup that caches matches within one call.

 The regex engine is foreign: `Engine` says which patterns compile and what a pattern captures on a path,
 the same answer for the same question.  Match timeouts are not modelled.
 */
module Routing {
  import opened Optional

  datatype Engine<C> = Engine(
    upper: string -> string,
    compiles: string -> bool,
    fullmatch: (string, string) -> Option<C>)

  datatype Config = Config(maxPathBytes: nat, maxRoutes: nat)

  datatype Route<H> = Route(id: nat, pattern: string, handlers: map<string, H>)

  datatype Resolution<H, C> =
    | StaticMatch(handler: H, path: string)
    | RegexMatch(handler: H, captures: C, pattern: string)
    | NoMatch(allowed: seq<string>)
    | PathNotAscii
    | PathTooLarge

  // ---------------------------------------------------------------- sorted(...)

  /** Order of code points, as `sorted` compares strings. */
  predicate Less(a: string, b: string)
  {
    b != "" && (a == "" || a[0] < b[0] || (a[0] == b[0] && Less(a[1..], b[1..])))
  }

  lemma {:induction false} LessTransitive(a: string, b: string, c: string)
    requires Less(a, b) && Less(b, c)
    ensures Less(a, c)
  {
    if a != "" && a[0] == b[0] && b[0] == c[0] {
      LessTransitive(a[1..], b[1..], c[1..]);
    }
  }

  lemma {:induction false} LessTotal(a: string, b: string)
    ensures Less(a, b) || a == b || Less(b, a)
    ensures !(Less(a, b) && Less(b, a)) && !Less(a, a)
  {
    if a != "" {
      LessTotal(a[1..], a[1..]);
    }
    if a != "" && b != "" && a[0] == b[0] {
      LessTotal(a[1..], b[1..]);
      assert a == [a[0]] + a[1..] && b == [b[0]] + b[1..];
    }
  }

  /** Strictly ascending: sorted and without repeats. */
  predicate Ascending(s: seq<string>)
  {
    forall i, j | 0 <= i < j < |s| :: Less(s[i], s[j])
  }

  function Elements(s: seq<string>): set<string> { set x | x in s }

  method InsertSorted(s: seq<string>, x: string) returns (r: seq<string>)
    requires Ascending(s)
    ensures Ascending(r) && Elements(r) == Elements(s) + {x}
  {
    var k := 0;
    while k < |s| && Less(s[k], x)
      invariant k <= |s| && forall i | 0 <= i < k :: Less(s[i], x)
    {
      k := k + 1;
    }
    if k < |s| {
      LessTotal(s[k], x);
    }
    if k < |s| && s[k] == x {
      assert Elements(s) == Elements(s) + {x};
      return s;
    }
    r := s[..k] + [x] + s[k..];
    forall i, j | 0 <= i < j < |r| ensures Less(r[i], r[j]) {
      if i == k && j > k + 1 {
        LessTransitive(x, s[k], s[j - 1]);
      }
    }
    assert s == s[..k] + s[k..];
    assert forall y :: y in r <==> y in s[..k] || y == x || y in s[k..];
    assert forall y :: y in s <==> y in s[..k] || y in s[k..];
  }

  method Sorted(items: set<string>) returns (r: seq<string>)
    ensures Ascending(r) && Elements(r) == items
  {
    r := [];
    var todo := items;
    while exists x :: x in todo
      invariant Ascending(r) && Elements(r) + todo == items && Elements(r) !! todo
      decreases |todo|
    {
      var x :| x in todo;
      todo := todo - {x};
      r := InsertSorted(r, x);
    }
  }

  // ---------------------------------------------------------------- the simple rule

  function StaticMethods<H>(routes: map<(string, string), H>, path: string): set<string>
  {
    set k | k in routes && k.1 == path :: k.0
  }

  /** The first route, in order of registration from `i` on, that has the method and matches the path. */
  function FirstMatch<H, C>(e: Engine<C>, routes: seq<Route<H>>, i: nat, verb: string, path: string): (r: Option<nat>)
    requires i <= |routes|
    ensures r.Some? ==> i <= r.value < |routes| && verb in routes[r.value].handlers && e.fullmatch(routes[r.value].pattern, path).Some?
    ensures r.Some? ==> forall k | i <= k < r.value :: verb !in routes[k].handlers || e.fullmatch(routes[k].pattern, path) == None
    ensures r == None ==> forall k | i <= k < |routes| :: verb !in routes[k].handlers || e.fullmatch(routes[k].pattern, path) == None
    decreases |routes| - i
  {
    if i == |routes| then None
    else if verb in routes[i].handlers && e.fullmatch(routes[i].pattern, path).Some? then Some(i)
    else FirstMatch(e, routes, i + 1, verb, path)
  }

  /** Every method some route answers on this path. */
  ghost predicate Answers<H, C>(e: Engine<C>, statics: map<(string, string), H>, routes: seq<Route<H>>, path: string, verb: string)
  {
    (verb, path) in statics
    || exists k :: 0 <= k < |routes| && verb in routes[k].handlers && e.fullmatch(routes[k].pattern, path).Some?
  }

  predicate IsAscii(path: string) { forall c | c in path :: c as int < 128 }

  /**
   The rule: the static route; else, on a path fit for matching, the first registered regex route that has
   the method and matches; else the sorted methods of all routes that answer on the path.  The path is
   looked at only if there are regex routes.
   */
  ghost predicate Follows<H, C>(e: Engine<C>, cfg: Config, statics: map<(string, string), H>, routes: seq<Route<H>>,
                                verb: string, path: string, r: Resolution<H, C>)
  {
    if (verb, path) in statics then r == StaticMatch(statics[(verb, path)], path)
    else if routes != [] && !IsAscii(path) then r == PathNotAscii
    else if routes != [] && |path| > cfg.maxPathBytes then r == PathTooLarge
    else match FirstMatch(e, routes, 0, verb, path)
         case Some(i) =>
           r == RegexMatch(routes[i].handlers[verb], e.fullmatch(routes[i].pattern, path).value, routes[i].pattern)
         case None =>
           r.NoMatch? && Ascending(r.allowed) && forall m :: m in r.allowed <==> Answers(e, statics, routes, path, m)
  }

  /** The methods offered instead never include the one that was asked for. */
  lemma AllowedExcludesTheMethod<H, C>(e: Engine<C>, cfg: Config, statics: map<(string, string), H>, routes: seq<Route<H>>,
                                       verb: string, path: string, r: Resolution<H, C>)
    requires Follows(e, cfg, statics, routes, verb, path, r) && r.NoMatch?
    ensures verb !in r.allowed
  {
    assert !Answers(e, statics, routes, path, verb);
  }

  /** The rule leaves no choice. */
  lemma {:induction false} AscendingUnique(a: seq<string>, b: seq<string>)
    requires Ascending(a) && Ascending(b) && forall m :: m in a <==> m in b
    ensures a == b
    decreases |a|
  {
    if a == [] {
      if b != [] {
        HasMember(b);
        assert false;
      }
    } else {
      assert a[0] in b;
      FirstIsLeast(a, b);
      var x, y := a[1..], b[1..];
      forall m ensures m in x <==> m in y {
        NotAgain(a);
        NotAgain(b);
        assert m in a <==> m == a[0] || m in x;
        assert m in b <==> m == b[0] || m in y;
      }
      AscendingUnique(x, y);
      assert a == [a[0]] + x && b == [b[0]] + y;
    }
  }

  lemma HasMember(b: seq<string>)
    requires b != []
    ensures exists m :: m in b
  {
    assert b[0] in b;
  }

  lemma NotAgain(a: seq<string>)
    requires Ascending(a) && a != []
    ensures a[0] !in a[1..]
  {
    if a[0] in a[1..] {
      var i :| 0 < i < |a| && a[i] == a[0];
      LessTotal(a[0], a[0]);
    }
  }

  lemma FirstIsLeast(a: seq<string>, b: seq<string>)
    requires Ascending(a) && Ascending(b) && a != [] && b != [] && a[0] in b && b[0] in a
    ensures a[0] == b[0]
  {
    var i :| 0 <= i < |a| && a[i] == b[0];
    var j :| 0 <= j < |b| && b[j] == a[0];
    if i > 0 && j > 0 {
      LessTotal(a[0], b[0]);
    }
  }

  lemma RuleIsDeterministic<H, C>(e: Engine<C>, cfg: Config, statics: map<(string, string), H>, routes: seq<Route<H>>,
                                  verb: string, path: string, r: Resolution<H, C>, q: Resolution<H, C>)
    requires Follows(e, cfg, statics, routes, verb, path, r) && Follows(e, cfg, statics, routes, verb, path, q)
    ensures r == q
  {
    if r.NoMatch? && q.NoMatch? {
      AscendingUnique(r.allowed, q.allowed);
    }
  }

  // ---------------------------------------------------------------- the router

  class Router<H, C> {
    const engine: Engine<C>
    const cfg: Config
    var statics: map<(string, string), H>
    var routes: seq<Route<H>>
    var byPattern: map<string, nat>

    /** The index and the list agree, patterns are distinct, and there are no more routes than allowed. */
    ghost predicate Valid()
      reads this
    {
      && |routes| <= cfg.maxRoutes
      && (forall i | 0 <= i < |routes| :: routes[i].pattern in byPattern && byPattern[routes[i].pattern] == i)
      && (forall p | p in byPattern :: byPattern[p] < |routes| && routes[byPattern[p]].pattern == p)
      && (forall i | 0 <= i < |routes| :: routes[i].id == i + 1 && engine.compiles(routes[i].pattern))
    }

    constructor (engine: Engine<C>, cfg: Config)
      ensures Valid() && this.engine == engine && this.cfg == cfg && statics == map[] && routes == []
    {
      this.engine, this.cfg, statics, routes, byPattern := engine, cfg, map[], [], map[];
    }

    /** `add_static`: all the methods or, if one of them is taken, none. */
    method AddStatic(path: string, methods: seq<string>, handler: H) returns (ok: bool)
      requires Valid()
      modifies this
      ensures Valid() && routes == old(routes)
      ensures ok <==> forall m | m in methods :: (m, path) !in old(statics)
      ensures !ok ==> statics == old(statics)
      ensures ok ==> forall k :: k in statics <==> k in old(statics) || (k.1 == path && k.0 in methods)
      ensures ok ==> forall k | k in statics :: statics[k] == if k in old(statics) then old(statics)[k] else handler
    {
      for i := 0 to |methods|
        invariant forall j | 0 <= j < i :: (methods[j], path) !in statics
      {
        if (methods[i], path) in statics { return false; }
      }
      var added := statics;
      for i := 0 to |methods|
        invariant forall k :: k in added <==> k in statics || (k.1 == path && k.0 in methods[..i])
        invariant forall k | k in added :: added[k] == if k in statics then statics[k] else handler
      {
        assert methods[..i + 1] == methods[..i] + [methods[i]];
        added := added[(methods[i], path) := handler];
      }
      assert methods[..|methods|] == methods;
      statics := added;
      ok := true;
    }

    /** `add_regex`: a known pattern gets more methods where it stands, a new one goes to the end; or nothing changes. */
    method AddRegex(pattern: string, methods: seq<string>, handler: H) returns (ok: bool)
      requires Valid()
      modifies this
      ensures Valid() && statics == old(statics)
      ensures !ok ==> routes == old(routes) && byPattern == old(byPattern)
      ensures ok && pattern in old(byPattern) ==>
                var i := old(byPattern)[pattern];
                && (forall m | m in methods :: m !in old(routes)[i].handlers)
                && |routes| == |old(routes)| && (forall k | 0 <= k < |routes| && k != i :: routes[k] == old(routes)[k])
                && routes[i].pattern == pattern && byPattern == old(byPattern)
                && MoreHandlers(old(routes)[i].handlers, methods, handler, routes[i].handlers)
      ensures ok && pattern !in old(byPattern) ==>
                && |old(routes)| < cfg.maxRoutes && engine.compiles(pattern)
                && |routes| == |old(routes)| + 1 && routes[..|old(routes)|] == old(routes)
                && routes[|old(routes)|].pattern == pattern
                && MoreHandlers(map[], methods, handler, routes[|old(routes)|].handlers)
      ensures !ok ==> if pattern in old(byPattern) then exists m :: m in methods && m in old(routes)[old(byPattern)[pattern]].handlers
                      else |old(routes)| >= cfg.maxRoutes || !engine.compiles(pattern)
    {
      if pattern in byPattern {
        var index := byPattern[pattern];
        var existing := routes[index];
        for i := 0 to |methods|
          invariant forall j | 0 <= j < i :: methods[j] !in existing.handlers
        {
          if methods[i] in existing.handlers { return false; }
        }
        var handlers := WithMethods(existing.handlers, methods, handler);
        routes := routes[index := Route(existing.id, existing.pattern, handlers)];
        return true;
      }
      if |routes| >= cfg.maxRoutes { return false; }
      if !engine.compiles(pattern) { return false; }
      var handlers := WithMethods(map[], methods, handler);
      byPattern := byPattern[pattern := |routes|];
      routes := routes + [Route(|routes| + 1, pattern, handlers)];
      ok := true;
    }

    /** `resolve` follows the rule. */
    method Resolve(requested: string, path: string) returns (r: Resolution<H, C>)
      requires Valid()
      ensures Follows(engine, cfg, statics, routes, engine.upper(requested), path, r)
    {
      var verb := engine.upper(requested);
      if (verb, path) in statics { return StaticMatch(statics[(verb, path)], path); }
      if routes == [] {
        var sorted := Sorted(StaticMethods(statics, path));
        assert forall m :: m in sorted <==> m in Elements(sorted);
        return NoMatch(sorted);
      }
      if !IsAscii(path) { return PathNotAscii; }
      if |path| > cfg.maxPathBytes { return PathTooLarge; }
      var cached: map<nat, Option<C>> := map[];
      for index := 0 to |routes|
        invariant FirstMatch(engine, routes, 0, verb, path) == FirstMatch(engine, routes, index, verb, path)
        invariant forall k | k in cached :: k < index && cached[k] == engine.fullmatch(routes[k].pattern, path)
      {
        if verb !in routes[index].handlers { continue; }
        var m := engine.fullmatch(routes[index].pattern, path);
        cached := cached[index := m];
        if m.Some? { return RegexMatch(routes[index].handlers[verb], m.value, routes[index].pattern); }
      }
      var allowed := Allowed(path, cached);
      var sorted := Sorted(allowed);
      assert forall m :: m in sorted <==> m in Elements(sorted);
      r := NoMatch(sorted);
    }

    /** The second loop of `resolve`: cached matches are not asked for again. */
    method Allowed(path: string, cached: map<nat, Option<C>>) returns (allowed: set<string>)
      requires forall k | k in cached :: k < |routes| && cached[k] == engine.fullmatch(routes[k].pattern, path)
      ensures forall m :: m in allowed <==> Answers(engine, statics, routes, path, m)
    {
      allowed := StaticMethods(statics, path);
      for index := 0 to |routes|
        invariant forall m :: m in allowed <==>
                    (m, path) in statics || exists k :: 0 <= k < index && m in routes[k].handlers
                                                        && engine.fullmatch(routes[k].pattern, path).Some?
      {
        var m := if index in cached then cached[index] else engine.fullmatch(routes[index].pattern, path);
        if m.Some? {
          allowed := allowed + routes[index].handlers.Keys;
        }
      }
    }
  }

  /** The handlers after registering one handler for some methods. */
  ghost predicate MoreHandlers<H>(before: map<string, H>, methods: seq<string>, handler: H, after: map<string, H>)
  {
    && (forall m :: m in after <==> m in before || m in methods)
    && forall m | m in after :: after[m] == if m in methods then handler else before[m]
  }

  method WithMethods<H>(before: map<string, H>, methods: seq<string>, handler: H) returns (after: map<string, H>)
    ensures MoreHandlers(before, methods, handler, after)
  {
    after := before;
    for i := 0 to |methods|
      invariant MoreHandlers(before, methods[..i], handler, after)
    {
      assert methods[..i + 1] == methods[..i] + [methods[i]];
      after := after[methods[i] := handler];
    }
    assert methods[..|methods|] == methods;
  }
}
