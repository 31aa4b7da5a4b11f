/** The structure shared by the guard and edge registries: a map from keys
    (transitions between slots) to lists, kept in registration order, and the
    four-tier lookup that gathers everything relevant to a concrete transition. */
module Registry {
  import opened Transitions
  import opened PartialTransitions

  type Table<S(==), X> = map<Key<S>, seq<X>>

  /** One registration: the pattern and the guard or edge registered with it. */
  type Registration<S(==), X> = (PartialTransition<S>, X)

  /** The list stored under a key, or the empty list when the key is absent. */
  function Lookup<S(==), X>(m: Table<S, X>, k: Key<S>): seq<X> {
    if k in m then m[k] else []
  }

  /** The keys consulted for a transition, tier by tier:
      0 exact, 1 (from, any), 2 (any, to), 3 (any, any). */
  function TierKey<S(==)>(t: Transition<S>, i: nat): Key<S>
    requires i < 4
  {
    match i
    case 0 => Transition(Is(t.previousState), Is(t.nextState))
    case 1 => Transition(Is(t.previousState), Any)
    case 2 => Transition(Any, Is(t.nextState))
    case _ => Transition(Any, Any)
  }

  /** What a registry returns for a transition: the four tiers' lists, concatenated in tier order. */
  function Gather<S(==), X>(m: Table<S, X>, t: Transition<S>): seq<X> {
    Lookup(m, TierKey(t, 0)) + Lookup(m, TierKey(t, 1)) + Lookup(m, TierKey(t, 2)) + Lookup(m, TierKey(t, 3))
  }

  /** The table after `x` is added at the end of the list of every key in `keys`. */
  ghost function Append<S, X>(m: Table<S, X>, keys: set<Key<S>>, x: X): Table<S, X> {
    map k | k in m.Keys + keys :: if k in keys then Lookup(m, k) + [x] else m[k]
  }

  /** The table built by replaying registrations, in order, from an empty registry. */
  ghost function Build<S, X>(h: seq<Registration<S, X>>): Table<S, X>
    decreases |h|
  {
    if h == [] then map[]
    else Append(Build(h[..|h| - 1]), ExpandedKeys(h[|h| - 1].0), h[|h| - 1].1)
  }

  /** Which tier of a concrete transition a pattern is stored under, stated on
      the pattern itself rather than on its expansion. */
  predicate TierMatches<S(==)>(p: PartialTransition<S>, t: Transition<S>, i: nat)
    requires i < 4
  {
    match i
    case 0 => t.previousState in p.currentStates && t.nextState in p.nextStates
    case 1 => t.previousState in p.currentStates && p.nextStates == {}
    case 2 => p.currentStates == {} && t.nextState in p.nextStates
    case _ => p.currentStates == {} && p.nextStates == {}
  }

  /** A registration's contribution to tier `i` of `t`: itself, or nothing. */
  function Pick<S(==), X>(r: Registration<S, X>, t: Transition<S>, i: nat): seq<X>
    requires i < 4
  {
    if TierMatches(r.0, t, i) then [r.1] else []
  }

  /** The registrations of tier `i`, in registration order. */
  function Filter<S(==), X>(h: seq<Registration<S, X>>, t: Transition<S>, i: nat): seq<X>
    requires i < 4
  {
    if h == [] then [] else Filter(h[..|h| - 1], t, i) + Pick(h[|h| - 1], t, i)
  }

  /** Reference definition of a lookup: tier by tier, and within a tier in registration order. */
  function Expected<S(==), X>(h: seq<Registration<S, X>>, t: Transition<S>): seq<X> {
    Filter(h, t, 0) + Filter(h, t, 1) + Filter(h, t, 2) + Filter(h, t, 3)
  }

  /** The registrations whose pattern matches `t`, in registration order. */
  function Matching<S(==), X>(h: seq<Registration<S, X>>, t: Transition<S>): seq<X> {
    if h == [] then []
    else Matching(h[..|h| - 1], t) + (if Matches(h[|h| - 1].0, t) then [h[|h| - 1].1] else [])
  }

  /** Registration appends `x` at the end of every expanded key's list and
      leaves every other key's list as it was. */
  lemma AppendLookup<S, X>(m: Table<S, X>, keys: set<Key<S>>, x: X, k: Key<S>)
    ensures Lookup(Append(m, keys, x), k) == if k in keys then Lookup(m, k) + [x] else Lookup(m, k)
  {
  }

  /** One step of the registration loop. */
  lemma AppendStep<S, X>(m: Table<S, X>, keys: set<Key<S>>, x: X, k: Key<S>)
    requires k !in keys
    ensures Append(m, keys + {k}, x) == Append(m, keys, x)[k := Lookup(Append(m, keys, x), k) + [x]]
  {
    var l := Append(m, keys + {k}, x);
    var r := Append(m, keys, x)[k := Lookup(Append(m, keys, x), k) + [x]];
    assert l.Keys == r.Keys;
    forall key | key in l.Keys ensures l[key] == r[key] {
      AppendLookup(m, keys + {k}, x, key);
      AppendLookup(m, keys, x, key);
    }
  }

  /** A key of tier `i` is among the pattern's expanded keys exactly when the
      pattern matches the transition in that tier. */
  lemma TierKeyInExpansion<S>(p: PartialTransition<S>, t: Transition<S>, i: nat)
    requires i < 4
    ensures TierKey(t, i) in ExpandedKeys(p) <==> TierMatches(p, t, i)
  {
    ExpandedKeysMembership(p, TierKey(t, i));
  }

  /** A pattern matches a transition in exactly one tier when it matches it at
      all, and in none otherwise. */
  lemma MatchesExactlyOneTier<S>(p: PartialTransition<S>, t: Transition<S>)
    ensures (if TierMatches(p, t, 0) then 1 else 0) + (if TierMatches(p, t, 1) then 1 else 0)
          + (if TierMatches(p, t, 2) then 1 else 0) + (if TierMatches(p, t, 3) then 1 else 0)
         == (if Matches(p, t) then 1 else 0)
  {
  }

  /** One registration extends each tier's list of a transition by `x` exactly
      when the pattern matches in that tier; the order already there is kept. */
  lemma RegisterExtendsTier<S, X>(m: Table<S, X>, p: PartialTransition<S>, x: X, t: Transition<S>, i: nat)
    requires i < 4
    ensures Lookup(Append(m, ExpandedKeys(p), x), TierKey(t, i))
         == Lookup(m, TierKey(t, i)) + (if TierMatches(p, t, i) then [x] else [])
  {
    AppendLookup(m, ExpandedKeys(p), x, TierKey(t, i));
    TierKeyInExpansion(p, t, i);
  }

  /** What one registration adds to the tiers of `t`, counted together. */
  lemma TierExtras<S, X>(p: PartialTransition<S>, x: X, t: Transition<S>)
    ensures multiset(if TierMatches(p, t, 0) then [x] else []) + multiset(if TierMatches(p, t, 1) then [x] else [])
          + multiset(if TierMatches(p, t, 2) then [x] else []) + multiset(if TierMatches(p, t, 3) then [x] else [])
         == if Matches(p, t) then multiset{x} else multiset{}
  {
  }

  /** Regrouping eight multisets: the four tiers as they were, and the four extensions. */
  lemma Regroup<X>(a0: multiset<X>, b0: multiset<X>, a1: multiset<X>, b1: multiset<X>,
                   a2: multiset<X>, b2: multiset<X>, a3: multiset<X>, b3: multiset<X>)
    ensures (a0 + b0) + (a1 + b1) + (a2 + b2) + (a3 + b3) == (a0 + a1 + a2 + a3) + (b0 + b1 + b2 + b3)
  {
    forall y ensures ((a0 + b0) + (a1 + b1) + (a2 + b2) + (a3 + b3))[y] == ((a0 + a1 + a2 + a3) + (b0 + b1 + b2 + b3))[y] {
    }
    assert (a0 + b0) + (a1 + b1) + (a2 + b2) + (a3 + b3) == (a0 + a1 + a2 + a3) + (b0 + b1 + b2 + b3);
  }

  /** One registration adds `x` to a transition's gathered list once if its
      pattern matches the transition, and not at all otherwise. */
  lemma RegisterCount<S, X>(m: Table<S, X>, p: PartialTransition<S>, x: X, t: Transition<S>)
    ensures multiset(Gather(Append(m, ExpandedKeys(p), x), t))
         == multiset(Gather(m, t)) + (if Matches(p, t) then multiset{x} else multiset{})
  {
    var m' := Append(m, ExpandedKeys(p), x);
    RegisterExtendsTier(m, p, x, t, 0);
    RegisterExtendsTier(m, p, x, t, 1);
    RegisterExtendsTier(m, p, x, t, 2);
    RegisterExtendsTier(m, p, x, t, 3);
    var e0, e1 := (if TierMatches(p, t, 0) then [x] else []), (if TierMatches(p, t, 1) then [x] else []);
    var e2, e3 := (if TierMatches(p, t, 2) then [x] else []), (if TierMatches(p, t, 3) then [x] else []);
    var l0, l1 := Lookup(m, TierKey(t, 0)), Lookup(m, TierKey(t, 1));
    var l2, l3 := Lookup(m, TierKey(t, 2)), Lookup(m, TierKey(t, 3));
    assert Gather(m, t) == l0 + l1 + l2 + l3;
    assert Gather(m', t) == (l0 + e0) + (l1 + e1) + (l2 + e2) + (l3 + e3);
    calc {
      multiset(Gather(m', t));
      multiset(l0 + e0) + multiset(l1 + e1) + multiset(l2 + e2) + multiset(l3 + e3);
      (multiset(l0) + multiset(e0)) + (multiset(l1) + multiset(e1))
        + (multiset(l2) + multiset(e2)) + (multiset(l3) + multiset(e3));
      { Regroup(multiset(l0), multiset(e0), multiset(l1), multiset(e1),
                multiset(l2), multiset(e2), multiset(l3), multiset(e3)); }
      (multiset(l0) + multiset(l1) + multiset(l2) + multiset(l3))
        + (multiset(e0) + multiset(e1) + multiset(e2) + multiset(e3));
      { TierExtras(p, x, t); }
      multiset(Gather(m, t)) + (if Matches(p, t) then multiset{x} else multiset{});
    }
  }

  /** A guard or edge not yet gathered for `t` occurs in the gathered list
      exactly once after it is registered with a matching pattern, and not at
      all otherwise. */
  lemma RegisteredOnceOccursOnce<S, X>(m: Table<S, X>, p: PartialTransition<S>, x: X, t: Transition<S>)
    requires x !in Gather(m, t)
    ensures multiset(Gather(Append(m, ExpandedKeys(p), x), t))[x] == if Matches(p, t) then 1 else 0
  {
    RegisterCount(m, p, x, t);
  }

  /** Each tier's list in a built registry is that tier's registrations in registration order. */
  lemma {:induction false} TierLookup<S, X>(h: seq<Registration<S, X>>, t: Transition<S>, i: nat)
    requires i < 4
    ensures Lookup(Build(h), TierKey(t, i)) == Filter(h, t, i)
    decreases |h|
  {
    if h != [] {
      TierLookup(h[..|h| - 1], t, i);
      RegisterExtendsTier(Build(h[..|h| - 1]), h[|h| - 1].0, h[|h| - 1].1, t, i);
    }
  }

  /** The four-tier lookup of a built registry agrees with the reference
      definition: tier order first, registration order within a tier. */
  lemma GatherBuild<S, X>(h: seq<Registration<S, X>>, t: Transition<S>)
    ensures Gather(Build(h), t) == Expected(h, t)
  {
    TierLookup(h, t, 0);
    TierLookup(h, t, 1);
    TierLookup(h, t, 2);
    TierLookup(h, t, 3);
  }

  /** The lookup returns exactly the registrations whose pattern matches, each
      as often as it was registered with a matching pattern. */
  lemma {:induction false} GatherIsMatching<S, X>(h: seq<Registration<S, X>>, t: Transition<S>)
    ensures multiset(Gather(Build(h), t)) == multiset(Matching(h, t))
    decreases |h|
  {
    if h != [] {
      GatherIsMatching(h[..|h| - 1], t);
      RegisterCount(Build(h[..|h| - 1]), h[|h| - 1].0, h[|h| - 1].1, t);
    }
  }

  /** A registration whose pattern matches `t` is found by the lookup. */
  lemma {:induction false} MatchingRegistrationFound<S, X>(h: seq<Registration<S, X>>, t: Transition<S>, j: nat)
    requires j < |h| && Matches(h[j].0, t)
    ensures h[j].1 in Gather(Build(h), t)
  {
    MatchingContains(h, t, j);
    GatherIsMatching(h, t);
    assert h[j].1 in multiset(Gather(Build(h), t));
  }

  lemma {:induction false} MatchingContains<S, X>(h: seq<Registration<S, X>>, t: Transition<S>, j: nat)
    requires j < |h| && Matches(h[j].0, t)
    ensures h[j].1 in Matching(h, t)
    decreases |h|
  {
    if j < |h| - 1 {
      MatchingContains(h[..|h| - 1], t, j);
    }
  }

  /** Without any matching registration the lookup is empty. */
  lemma NoMatchGathersNothing<S, X>(h: seq<Registration<S, X>>, t: Transition<S>)
    requires forall j :: 0 <= j < |h| ==> !Matches(h[j].0, t)
    ensures Gather(Build(h), t) == []
  {
    NoMatchIsEmpty(h, t);
    GatherIsMatching(h, t);
  }

  lemma {:induction false} NoMatchIsEmpty<S, X>(h: seq<Registration<S, X>>, t: Transition<S>)
    requires forall j :: 0 <= j < |h| ==> !Matches(h[j].0, t)
    ensures Matching(h, t) == []
    decreases |h|
  {
    if h != [] {
      NoMatchIsEmpty(h[..|h| - 1], t);
    }
  }

  /** An empty registry gathers nothing for any transition. */
  lemma EmptyGathersNothing<S, X>(t: Transition<S>)
    ensures Gather<S, X>(map[], t) == []
  {
  }

  lemma FilterSnoc<S, X>(h: seq<Registration<S, X>>, r: Registration<S, X>, t: Transition<S>, i: nat)
    requires i < 4
    ensures Filter(h + [r], t, i) == Filter(h, t, i) + Pick(r, t, i)
  {
    assert (h + [r])[..|h|] == h;
  }

  /** Extending a prefix of the history by one registration extends its tiers by that registration's pick. */
  lemma FilterPrefix<S, X>(h: seq<Registration<S, X>>, t: Transition<S>, i: nat, k: nat)
    requires k < |h| && i < 4
    ensures Filter(h[..k + 1], t, i) == Filter(h[..k], t, i) + Pick(h[k], t, i)
  {
    assert h[..k + 1][..k] == h[..k];
  }

  /** Tier `i` of a history of four registrations, spelled out. */
  lemma FilterOfFour<S, X>(h: seq<Registration<S, X>>, t: Transition<S>, i: nat)
    requires |h| == 4 && i < 4
    ensures Filter(h, t, i) == Pick(h[0], t, i) + Pick(h[1], t, i) + Pick(h[2], t, i) + Pick(h[3], t, i)
  {
    FilterPrefix(h, t, i, 0);
    FilterPrefix(h, t, i, 1);
    FilterPrefix(h, t, i, 2);
    FilterPrefix(h, t, i, 3);
    assert h[..0] == [] && h[..4] == h;
  }

  /** An exact registration precedes a (from, any) one for the same transition,
      even when the wildcard one was registered first. */
  lemma ExactBeforeWildcard<S, X>(a: S, b: S, first: X, second: X)
    ensures Expected([(PartialTransition({a}, {}), first), (PartialTransition({a}, {b}), second)], Transition(a, b))
         == [second, first]
  {
    var r0, r1 := (PartialTransition({a}, {}), first), (PartialTransition({a}, {b}), second);
    var t := Transition(a, b);
    assert [r0, r1] == [] + [r0] + [r1];
    forall i | i < 4 ensures Filter([r0, r1], t, i) == Pick(r0, t, i) + Pick(r1, t, i) {
      FilterSnoc([], r0, t, i);
      FilterSnoc([r0], r1, t, i);
    }
  }
}
