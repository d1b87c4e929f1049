/** conf/path.go: which configuration a path name resolves to. */
module PathConf {
  import opened Wrappers
  import PathState

  type Pattern = string

  datatype RecordSettings = RecordSettings(
    record: bool, recordPath: string, recordFormat: int, partDuration: int, maxPartSize: int,
    segmentDuration: int, deleteAfter: int)

  // Everything that cannot be changed while a path lives.
  datatype Cold = Cold(
    source: PathState.SourceKind, sourceOnDemand: bool, runOnDemand: bool, alwaysAvailable: bool,
    overridePublisher: bool, maxReaders: int, fallback: bool,
    others: int) // the remaining fields, as one value

  datatype Conf = Conf(
    name: string,
    regexp: Option<Pattern>,
    record: RecordSettings,
    camera: int, // the camera parameters that can be tuned while running, as one value
    cold: Cold
  ) {
    // What the state machine of a path sees.
    function Actor(): PathState.Conf {
      PathState.Conf(cold.source, cold.sourceOnDemand, cold.runOnDemand, cold.alwaysAvailable,
                     cold.overridePublisher, cold.maxReaders, cold.fallback, regexp.Some?)
    }
  }

  // Path name validation and regular expression matching, which this model does not define.
  datatype Env = Env(valid: string -> bool, matches: (Pattern, string) -> bool)

  datatype Lookup = Found(conf: Conf) | InvalidName | NotConfigured

  // The configurations of a validated configuration file: each knows its own name.
  ghost predicate WellNamed(confs: map<string, Conf>) {
    forall k :: k in confs ==> confs[k].name == k
  }

  // Go's order on strings.
  predicate Before(a: string, b: string) {
    if b == [] then false
    else if a == [] then true
    else if a[0] != b[0] then a[0] < b[0]
    else Before(a[1..], b[1..])
  }

  predicate IsCatchAll(name: string) {
    name == "all" || name == "all_others"
  }

  // The order of sort.Slice in FindPathConf: catch-all configurations last.
  predicate Less(a: string, b: string) {
    if IsCatchAll(a) then false
    else if IsCatchAll(b) then true
    else Before(a, b)
  }

  predicate Candidate(env: Env, c: Conf, name: string) {
    c.regexp.Some? && env.matches(c.regexp.value, name)
  }

  // r may be returned for this name, for some order of iteration over the configurations.
  ghost predicate IsLookup(env: Env, confs: map<string, Conf>, name: string, r: Lookup) {
    if name in confs then r == Found(confs[name])
    else if !env.valid(name) then r == InvalidName
    else if forall k :: k in confs ==> !Candidate(env, confs[k], name) then r == NotConfigured
    else exists k :: k in confs && r == Found(confs[k]) && Candidate(env, confs[k], name)
                     && forall j :: j in confs && Candidate(env, confs[j], name) ==> !Less(confs[j].name, confs[k].name)
  }

  lemma {:induction false} BeforeTotal(a: string, b: string)
    ensures !(Before(a, b) && Before(b, a))
    ensures a != b ==> Before(a, b) || Before(b, a)
    ensures !Before(a, a)
    decreases |a|
  {
    if a != [] && b != [] {
      BeforeTotal(a[1..], b[1..]);
      if a[0] == b[0] && a[1..] == b[1..] {
        assert a == [a[0]] + a[1..] && b == [b[0]] + b[1..];
      }
    }
    if a != [] { BeforeTotal(a[1..], a[1..]); }
  }

  lemma {:induction false} BeforeTransitive(a: string, b: string, c: string)
    requires Before(a, b) && Before(b, c)
    ensures Before(a, c)
    decreases |a|
  {
    if a != [] && a[0] == b[0] && b[0] == c[0] {
      BeforeTransitive(a[1..], b[1..], c[1..]);
    }
  }

  lemma LessTransitive(a: string, b: string, c: string)
    requires Less(a, b) && Less(b, c)
    ensures Less(a, c)
  {
    if !IsCatchAll(c) { BeforeTransitive(a, b, c); }
  }

  lemma LessAsymmetric(a: string, b: string)
    requires Less(a, b)
    ensures !Less(b, a)
  {
    BeforeTotal(a, b);
  }

  ghost predicate Ordered(cs: seq<Conf>) {
    forall i, j :: 0 <= i < j < |cs| ==> !Less(cs[j].name, cs[i].name)
  }

  // sort.Slice, by insertion.
  method Sort(cs: seq<Conf>) returns (sorted: seq<Conf>)
    ensures Ordered(sorted)
    ensures multiset(sorted) == multiset(cs)
  {
    sorted := [];
    for i := 0 to |cs|
      invariant Ordered(sorted)
      invariant multiset(sorted) == multiset(cs[..i])
    {
      sorted := Insert(sorted, cs[i]);
      assert cs[..i + 1] == cs[..i] + [cs[i]];
    }
    assert cs[..|cs|] == cs;
  }

  method Insert(cs: seq<Conf>, c: Conf) returns (r: seq<Conf>)
    requires Ordered(cs)
    ensures Ordered(r)
    ensures multiset(r) == multiset(cs) + multiset{c}
  {
    var j := 0;
    while j < |cs| && !Less(c.name, cs[j].name)
      invariant 0 <= j <= |cs|
      invariant forall k :: 0 <= k < j ==> !Less(c.name, cs[k].name)
    {
      j := j + 1;
    }
    hide Less, Ordered;
    r := cs[..j] + [c] + cs[j..];
    assert cs == cs[..j] + cs[j..];
    InsertedIsOrdered(cs, c, j);
  }

  lemma InsertedIsOrdered(cs: seq<Conf>, c: Conf, j: nat)
    requires Ordered(cs) && j <= |cs| && (j < |cs| ==> Less(c.name, cs[j].name))
    requires forall k :: 0 <= k < j ==> !Less(c.name, cs[k].name)
    ensures Ordered(cs[..j] + [c] + cs[j..])
  {
    forall k | j <= k < |cs| ensures !Less(cs[k].name, c.name) {
      if Less(cs[k].name, c.name) {
        if k == j { LessAsymmetric(c.name, cs[j].name); }
        else { LessTransitive(cs[k].name, c.name, cs[j].name); }
      }
    }
    hide Less;
  }

  // Map iteration takes the configurations in any order.
  method FindPathConf(env: Env, confs: map<string, Conf>, name: string) returns (r: Lookup)
    ensures IsLookup(env, confs, name, r)
  {
    if name in confs {
      return Found(confs[name]);
    }
    if !env.valid(name) {
      return InvalidName;
    }
    var regexps: seq<Conf> := [];
    var left := confs.Keys;
    while left != {}
      invariant left <= confs.Keys
      invariant forall c :: c in regexps ==> exists k :: k in confs && confs[k] == c
      invariant forall k :: k in confs && k !in left && confs[k].regexp.Some? ==> confs[k] in regexps
      decreases left
    {
      var k :| k in left;
      left := left - {k};
      if confs[k].regexp.Some? {
        regexps := regexps + [confs[k]];
      }
    }
    var sorted := Sort(regexps);
    assert forall c :: c in sorted <==> c in regexps by {
      forall c ensures c in sorted <==> c in regexps {
        assert c in multiset(sorted) <==> c in multiset(regexps);
      }
    }
    for i := 0 to |sorted|
      invariant forall j :: 0 <= j < i ==> !Candidate(env, sorted[j], name)
    {
      if Candidate(env, sorted[i], name) {
        assert sorted[i] in sorted;
        ghost var k :| k in confs && confs[k] == sorted[i];
        forall j | j in confs && Candidate(env, confs[j], name)
          ensures !Less(confs[j].name, confs[k].name)
        {
          assert confs[j] in sorted;
          BeforeTotal(confs[k].name, confs[k].name);
        }
        return Found(sorted[i]);
      }
    }
    forall k | k in confs ensures !Candidate(env, confs[k], name) {
      if confs[k].regexp.Some? { assert confs[k] in sorted; }
    }
    return NotConfigured;
  }

  // The first place at which a is smaller, or ends.
  predicate IsSmallerAt(a: string, b: string, k: int) {
    0 <= k <= |a| && k < |b| && a[..k] == b[..k] && (k == |a| || a[k] < b[k])
  }

  lemma {:induction false} BeforeIsLexicographic(a: string, b: string)
    ensures Before(a, b) <==> exists k :: IsSmallerAt(a, b, k)
    decreases |a|
  {
    if b != [] && a != [] && a[0] == b[0] {
      BeforeIsLexicographic(a[1..], b[1..]);
      if k :| IsSmallerAt(a[1..], b[1..], k) {
        assert a[..k + 1] == [a[0]] + a[1..][..k] && b[..k + 1] == [b[0]] + b[1..][..k];
        assert IsSmallerAt(a, b, k + 1);
      }
      if k :| IsSmallerAt(a, b, k) {
        assert k > 0 && a[1..][..k - 1] == a[..k][1..] && b[1..][..k - 1] == b[..k][1..];
        assert IsSmallerAt(a[1..], b[1..], k - 1);
      }
    } else if b != [] {
      if a == [] || a[0] < b[0] { assert IsSmallerAt(a, b, 0); }
      if k :| IsSmallerAt(a, b, k) {
        if k > 0 { assert a[..k][0] == b[..k][0]; }
      }
    }
  }

  // A name with an entry of its own gets that one, even if it is not a valid name; any other valid name gets the
  // matching entry that comes first in alphabetical order, and a catch-all one only if nothing else matches.
  lemma LookupMeans(env: Env, confs: map<string, Conf>, name: string, r: Lookup)
    requires WellNamed(confs) && IsLookup(env, confs, name, r)
    ensures r == InvalidName <==> name !in confs && !env.valid(name)
    ensures name in confs ==> r == Found(confs[name])
    ensures name !in confs && env.valid(name) ==>
              (r.Found? <==>
                exists k :: k in confs && confs[k].regexp.Some? && env.matches(confs[k].regexp.value, name))
    ensures name !in confs && r.Found? ==>
              && r.conf.name in confs && confs[r.conf.name] == r.conf
              && r.conf.regexp.Some? && env.matches(r.conf.regexp.value, name)
              && forall k :: k in confs && confs[k].regexp.Some? && env.matches(confs[k].regexp.value, name)
                             && k != r.conf.name ==>
                   if r.conf.name == "all" || r.conf.name == "all_others" then k == "all" || k == "all_others"
                   else k == "all" || k == "all_others" || Before(r.conf.name, k)
  {
    assert forall k :: k in confs ==>
        (Candidate(env, confs[k], name) <==> confs[k].regexp.Some? && env.matches(confs[k].regexp.value, name));
    if name !in confs && r.Found? {
      forall k | k in confs && k != r.conf.name
        ensures Before(r.conf.name, k) || Before(k, r.conf.name)
      {
        BeforeTotal(r.conf.name, k);
      }
    }
  }

  // Both catch-all names are configured as regular expressions and nothing else matches.
  ghost predicate Ambiguous(env: Env, confs: map<string, Conf>, name: string) {
    && name !in confs && env.valid(name)
    && "all" in confs && Candidate(env, confs["all"], name)
    && "all_others" in confs && Candidate(env, confs["all_others"], name)
    && forall k :: k in confs && Candidate(env, confs[k], name) ==> IsCatchAll(k)
  }

  // The choice is the same for every iteration order exactly when the two aliases do not compete;
  // configuration validation refuses them together (conf/conf.go:1069-1071).
  lemma ChoiceIsUniqueExactly(env: Env, confs: map<string, Conf>, name: string)
    requires WellNamed(confs)
    ensures (forall r, q :: IsLookup(env, confs, name, r) && IsLookup(env, confs, name, q) ==> r == q)
        <==> !Ambiguous(env, confs, name)
  {
    if Ambiguous(env, confs, name) {
      assert confs["all"].name != confs["all_others"].name;
      assert IsLookup(env, confs, name, Found(confs["all"]));
      assert IsLookup(env, confs, name, Found(confs["all_others"]));
    } else {
      forall r, q | IsLookup(env, confs, name, r) && IsLookup(env, confs, name, q) ensures r == q {
        ChoiceIsUnique(env, confs, name, r, q);
      }
    }
  }

  lemma ChoiceIsUnique(env: Env, confs: map<string, Conf>, name: string, r: Lookup, q: Lookup)
    requires WellNamed(confs) && IsLookup(env, confs, name, r) && IsLookup(env, confs, name, q)
    requires !Ambiguous(env, confs, name)
    ensures r == q
  {
    if r != q {
      assert r.Found? && q.Found?;
      var a, b := r.conf.name, q.conf.name;
      assert a in confs && confs[a] == r.conf && b in confs && confs[b] == q.conf;
      BeforeTotal(a, b);
    }
  }
}
