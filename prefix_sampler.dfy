/** `pilot_bgp_prefixes`: shuffle the BGP prefix groups in place, then keep
    the longest run of leading groups that was started while the running
    number of /24 prefixes was still within the target. */
module PrefixSampler {
  import opened Common

  /** Number of /24 prefixes in a list of groups. */
  function Total(groups: seq<PrefixGroup>): nat
  {
    if groups == [] then 0 else |groups[0]| + Total(groups[1..])
  }

  lemma {:induction false} TotalConcat(a: seq<PrefixGroup>, b: seq<PrefixGroup>)
    ensures Total(a + b) == Total(a) + Total(b)
  {
    if a == [] {
      assert a + b == b;
    } else {
      assert (a + b)[1..] == a[1..] + b;
      TotalConcat(a[1..], b);
    }
  }

  lemma TotalPrefixStep(s: seq<PrefixGroup>, j: nat)
    requires j < |s|
    ensures Total(s[..j + 1]) == Total(s[..j]) + |s[j]|
  {
    assert s[..j + 1] == s[..j] + [s[j]];
    TotalConcat(s[..j], [s[j]]);
  }

  lemma TotalPrefixMonotone(s: seq<PrefixGroup>, k: nat)
    requires k <= |s|
    ensures Total(s[..k]) <= Total(s)
  {
    assert s == s[..k] + s[k..];
    TotalConcat(s[..k], s[k..]);
  }

  // ---------------------------------------------------------------------
  // The shuffle: CPython's `random.shuffle` walks i = n-1 down to 1 and
  // swaps x[i] with x[j] for a random j in [0, i]. The random draws are an
  // input here: draws[i] is the j chosen for position i.
  // ---------------------------------------------------------------------

  predicate ValidDraws(draws: seq<nat>)
  {
    forall i :: 0 <= i < |draws| ==> draws[i] <= i
  }

  function Swap<T>(s: seq<T>, i: nat, j: nat): (r: seq<T>)
    requires i < |s| && j < |s|
    ensures |r| == |s|
  {
    s[i := s[j]][j := s[i]]
  }

  /** The swaps of the shuffle for positions i-1 down to 1, applied to s. */
  function ShuffleDown<T>(s: seq<T>, draws: seq<nat>, i: nat): (r: seq<T>)
    requires |draws| == |s| && ValidDraws(draws) && i <= |s|
    ensures |r| == |s|
    decreases i
  {
    if i <= 1 then s else ShuffleDown(Swap(s, i - 1, draws[i - 1]), draws, i - 1)
  }

  /** The list as `random.shuffle` leaves it for the given draws. */
  function Shuffled<T>(s: seq<T>, draws: seq<nat>): seq<T>
    requires |draws| == |s| && ValidDraws(draws)
  {
    ShuffleDown(s, draws, |s|)
  }

  /** The shuffle only reorders: the multiset of groups is preserved. */
  lemma {:induction false} ShuffleDownPermutes<T>(s: seq<T>, draws: seq<nat>, i: nat)
    requires |draws| == |s| && ValidDraws(draws) && i <= |s|
    ensures multiset(ShuffleDown(s, draws, i)) == multiset(s)
    decreases i
  {
    if i > 1 {
      var t := Swap(s, i - 1, draws[i - 1]);
      assert multiset(t) == multiset(s);
      ShuffleDownPermutes(t, draws, i - 1);
    }
  }

  lemma ShuffledPermutes<T>(s: seq<T>, draws: seq<nat>)
    requires |draws| == |s| && ValidDraws(draws)
    ensures |Shuffled(s, draws)| == |s|
    ensures multiset(Shuffled(s, draws)) == multiset(s)
  {
    ShuffleDownPermutes(s, draws, |s|);
  }

  /** `random.shuffle(bgp_prefixes)`, in place. */
  method Shuffle<T>(a: array<T>, draws: seq<nat>)
    requires |draws| == a.Length && ValidDraws(draws)
    modifies a
    ensures a[..] == Shuffled(old(a[..]), draws)
    ensures multiset(a[..]) == multiset(old(a[..]))
  {
    var i := a.Length;
    while i > 1
      invariant 0 <= i <= a.Length
      invariant ShuffleDown(a[..], draws, i) == Shuffled(old(a[..]), draws)
    {
      i := i - 1;
      var j := draws[i];
      var t := a[i];
      a[i] := a[j];
      a[j] := t;
    }
    ShuffledPermutes(old(a[..]), draws);
  }

  // ---------------------------------------------------------------------
  // The greedy walk over the shuffled list.
  // ---------------------------------------------------------------------

  /** The groups the walk appends when it starts at the front of `groups`
      with `count` prefixes already counted: it stops at the end of the list
      or as soon as the count exceeds `nPrefixes`. */
  function GreedyFrom(groups: seq<PrefixGroup>, nPrefixes: int, count: nat): seq<PrefixGroup>
  {
    if groups == [] || count > nPrefixes then []
    else [groups[0]] + GreedyFrom(groups[1..], nPrefixes, count + |groups[0]|)
  }

  /** The groups `pilot_bgp_prefixes` returns for an already shuffled list. */
  function Greedy(groups: seq<PrefixGroup>, nPrefixes: int): seq<PrefixGroup>
  {
    GreedyFrom(groups, nPrefixes, 0)
  }

  /** Independent description of a correct cut after k groups: every group
      before the cut was appended while the running total was within the
      target, and the walk stopped early only because the total exceeded it. */
  ghost predicate StopsAt(groups: seq<PrefixGroup>, nPrefixes: int, k: nat)
  {
    && k <= |groups|
    && (forall j :: 0 <= j < k ==> Total(groups[..j]) <= nPrefixes)
    && (k < |groups| ==> Total(groups[..k]) > nPrefixes)
  }

  lemma {:induction false} GreedyFromStopsAt(groups: seq<PrefixGroup>, nPrefixes: int, count: nat)
    ensures var r := GreedyFrom(groups, nPrefixes, count);
      && |r| <= |groups| && r == groups[..|r|]
      && (forall j :: 0 <= j < |r| ==> count + Total(groups[..j]) <= nPrefixes)
      && (|r| < |groups| ==> count + Total(groups[..|r|]) > nPrefixes)
  {
    var r := GreedyFrom(groups, nPrefixes, count);
    if groups == [] || count > nPrefixes {
      assert r == [];
      assert groups[..0] == [];
    } else {
      var g := groups[0];
      var rest := groups[1..];
      var r' := GreedyFrom(rest, nPrefixes, count + |g|);
      GreedyFromStopsAt(rest, nPrefixes, count + |g|);
      assert r == [g] + r';
      assert r == groups[..|r|] by {
        assert groups == [g] + rest;
      }
      forall j | 0 <= j < |r|
        ensures count + Total(groups[..j]) <= nPrefixes
      {
        if j > 0 {
          assert groups[..j] == [g] + rest[..j - 1];
          TotalConcat([g], rest[..j - 1]);
        } else {
          assert groups[..j] == [];
        }
      }
      if |r| < |groups| {
        assert groups[..|r|] == [g] + rest[..|r'|];
        TotalConcat([g], rest[..|r'|]);
      }
    }
  }

  /** The greedy result is exactly the prefix described by StopsAt, and the
      cut StopsAt describes is unique: both directions of the characterisation. */
  lemma GreedyIsStopsAt(groups: seq<PrefixGroup>, nPrefixes: int, k: nat)
    ensures StopsAt(groups, nPrefixes, |Greedy(groups, nPrefixes)|)
    ensures Greedy(groups, nPrefixes) == groups[..|Greedy(groups, nPrefixes)|]
    ensures StopsAt(groups, nPrefixes, k) <==> k == |Greedy(groups, nPrefixes)|
  {
    var r := Greedy(groups, nPrefixes);
    GreedyFromStopsAt(groups, nPrefixes, 0);
  }

  /** Properties the sampler's callers rely on, stated on the shuffled list. */
  lemma GreedyProperties(groups: seq<PrefixGroup>, nPrefixes: int)
    ensures var r := Greedy(groups, nPrefixes);
      // a prefix of the list, in order
      && |r| <= |groups| && r == groups[..|r|]
      // the last group was appended while the count was within the target
      && (r != [] ==> Total(r) - |r[|r| - 1]| <= nPrefixes)
      // stopping early means the target was exceeded
      && (|r| < |groups| ==> Total(r) > nPrefixes)
      // a list that fits is returned whole
      && (Total(groups) <= nPrefixes ==> r == groups)
      // never undershoots a reachable target
      && (Total(groups) >= nPrefixes ==> Total(r) >= nPrefixes)
      // empty input or a negative target gives nothing; otherwise something
      && (groups == [] || nPrefixes < 0 ==> r == [])
      && (groups != [] && nPrefixes >= 0 ==> r != [])
  {
    var r := Greedy(groups, nPrefixes);
    GreedyFromStopsAt(groups, nPrefixes, 0);
    if r != [] {
      TotalPrefixStep(groups, |r| - 1);
      assert groups[..|r|] == r;
    }
    if |r| < |groups| {
      TotalPrefixMonotone(groups, |r|);
      assert Total(r) > nPrefixes;
    } else {
      assert r == groups by {
        assert groups[..|groups|] == groups;
      }
    }
    if groups != [] && nPrefixes >= 0 {
      assert groups[..0] == [];
    }
  }

  /** The walk of `pilot_bgp_prefixes` over the (already shuffled) list:
      `for bgp_prefix in bgp_prefixes: if count > n: break; append; count += len`. */
  method TakeWithinBudget(groups: array<PrefixGroup>, nPrefixes: int)
    returns (subset: seq<PrefixGroup>, count: nat)
    ensures subset == Greedy(groups[..], nPrefixes)
    ensures count == Total(subset)
  {
    subset, count := [], 0;
    var i := 0;
    while i < groups.Length
      invariant 0 <= i <= groups.Length
      invariant subset == groups[..i]
      invariant count == Total(subset)
      invariant Greedy(groups[..], nPrefixes) == subset + GreedyFrom(groups[i..], nPrefixes, count)
    {
      if count > nPrefixes {
        break;
      }
      var g := groups[i];
      assert groups[i..][1..] == groups[i + 1..];
      TotalPrefixStep(groups[..], i);
      assert groups[..i + 1] == subset + [g];
      subset := subset + [g];
      count := count + |g|;
      i := i + 1;
    }
    assert i == groups.Length ==> groups[i..] == [];
  }

  /** `pilot_bgp_prefixes(bgp_prefixes, n_prefixes)`: shuffles the caller's
      list in place, then returns the greedy prefix of the shuffled list. */
  method PilotBgpPrefixes(bgpPrefixes: array<PrefixGroup>, nPrefixes: int, draws: seq<nat>)
    returns (subset: seq<PrefixGroup>)
    requires |draws| == bgpPrefixes.Length && ValidDraws(draws)
    modifies bgpPrefixes
    ensures bgpPrefixes[..] == Shuffled(old(bgpPrefixes[..]), draws)
    ensures multiset(bgpPrefixes[..]) == multiset(old(bgpPrefixes[..]))
    ensures subset == Greedy(bgpPrefixes[..], nPrefixes)
  {
    Shuffle(bgpPrefixes, draws);
    var count;
    subset, count := TakeWithinBudget(bgpPrefixes, nPrefixes);
  }

  /** Four groups of 50 prefixes and a target of 120: after two groups the
      count (100) is within the target, after the third (150) it is not. */
  lemma FourFiftiesTakeThree(groups: seq<PrefixGroup>)
    requires |groups| == 4 && forall i :: 0 <= i < 4 ==> |groups[i]| == 50
    ensures |Greedy(groups, 120)| == 3 && Total(Greedy(groups, 120)) == 150
  {
    var s1, s2, s3 := groups[1..], groups[2..], groups[3..];
    assert s1[1..] == s2 && s2[1..] == s3;
    assert GreedyFrom(s3, 120, 150) == [];
    assert GreedyFrom(s2, 120, 100) == [groups[2]];
    assert GreedyFrom(s1, 120, 50) == [groups[1], groups[2]];
    var r := [groups[0], groups[1], groups[2]];
    assert Greedy(groups, 120) == r;
    assert r[1..] == [groups[1], groups[2]] && r[1..][1..] == [groups[2]];
    assert Total([groups[2]]) == 50;
    assert Total([groups[1], groups[2]]) == 100;
  }
}
